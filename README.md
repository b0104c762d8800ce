# Help Hub in Dafny

Help Hub is a volunteer-opportunity and resource-exchange web application.
Its Express server keeps five MongoDB collections: users, opportunities,
volunteer signups, resources and community tips. Its React client has one
page per collection and a context that holds the signed-in session.

This project models three parts of it and proves what they promise:

- the server's route handlers, over an in-memory store;
- the Mongoose schemas the handlers create documents through;
- the client's page helpers and its session context.

**Server.**
- `Store.Database` (store.dfy) is a class with one `seq` field per collection and a `clock`.
- The `clock` supplies every new ObjectId and every timestamp.
- Each collection is kept in creation order. `Database.Valid` says that:
  - creation times strictly increase;
  - ids are distinct and below the clock;
  - emails are unique;
  - no two signups pair the same user with the same opportunity.
- Every route is a module-level method that takes the database, names the fields it may change in its `modifies` clause, keeps `Valid` and states the whole new state.
- Read-only routes state what they return: the order, and exactly which records.
- The schemas (resource_model.dfy, signup_model.dfy, tip_model.dfy, entities.dfy) are `New…` functions. Each returns the stored record, or the list of paths that failed validation. They cover required paths, enums and defaults.
- JavaScript `||` on the profile fields is `Base.OrString` for strings (`""` is falsy) and `Base.OrArray` for arrays (`[]` is truthy).

**Client.**
- The filters, the comma-list parser and joiner, the dashboard helpers and `parseInt` are functions with lemmas.
- The JavaScript string built-ins are in text.dfy.
- Component state that the handlers set step by step is a class per page.
- `AuthContext.AuthProvider` is a class with `user`, `loading` and `storage` (localStorage as a `map`). Each of its methods is tied to a pure transition on `Session` values, and the lemmas are proved about those transitions.

**Parameters instead of code.**
- Network replies, `Math.random` (a choice of index within bounds), password hashing and comparison, `JSON.parse` and `JSON.stringify`, and whether a user is signed in are all parameters.
- The caller's id, which the token middleware resolves, is a parameter of every protected route.

## Model

| member | source | states |
|---|---|---|
| ResourceModel.ParseType | server/models/Resource.js:4-8 | `type` is accepted iff it is 'offer' or 'request', and the accepted value maps back to the same string |
| ResourceModel.NewResource | server/models/Resource.js:3-33 | the record is stored iff `type` is in the enum, resource_name, location, description and user_id are present (non-empty for strings) and `quantity` is not `null`; fields are copied, a left-out `quantity` defaults to 1, timestamps are the creation time; a rejection names every missing or `null` path and a `type` outside the enum |
| ResourceModel.QuantityHasNoLowerBound | server/models/Resource.js:13-17 | any quantity, zero or negative, is stored as given |
| SignupModel.ParseStatus | server/models/VolunteerSignup.js:14-17 | `status` is accepted iff it is 'pending', 'confirmed' or 'cancelled', and maps back to the same string |
| SignupModel.NewSignup | server/models/VolunteerSignup.js:3-21 | stored iff user_id and opportunity_id are present and any given status is in the enum; an absent status becomes pending; timestamps are the creation time |
| TipModel.NewTip | server/models/CommunityTip.js:3-27 | stored iff title, description, category and user_id are present; a left-out `likes` defaults to 0, a `null` one is stored as `null`, a number as given; a rejection names every missing path |
| TipModel.ClientSetsInitialLikes | server/models/CommunityTip.js:21-24 | a `likes` value in the create body, negative included, is stored unchanged |
| Entities.NewOpportunity | server/routes/opportunities.js:21-24 | an opportunity is stored iff the required fields are present; stored fields are the document's |
| Entities.GenerateToken | server/routes/auth.js:29 | the token issued for an id has that id as its subject |
| Store.Database.constructor | server/index.js:13-14 | the model's starting state: no records, clock 0, and `Valid`; connecting to MongoDB is not modelled |
| Store.NewestFirstIsSorted | server/routes/resources.js:10 | a `createdAt: -1` listing of a collection in creation order is strictly newest first and holds the same records |
| Store.NewestFirst | server/routes/resources.js:10 | the `sort({ createdAt: -1 })` listing; NewestFirstIsSorted states it is strictly newest first and a permutation |
| Store.FindFirst | server/routes/opportunities.js:49-52 | `findOne` yields the first matching record, and nothing only when no record matches |
| OpportunityRoutes.ListOpportunities | server/routes/opportunities.js:9-16 | every opportunity is listed, ordered non-decreasingly by date (same multiset) |
| Seqs.SortBy | server/routes/opportunities.js:11 | one order `sort({ date: 1 })` may return (ties keep creation order); SortByCorrect and ListOpportunities state it is non-decreasing and a permutation |
| OpportunityRoutes.CreateOpportunity | server/routes/opportunities.js:19-29 | the stored opportunity's owner is the caller whatever `user_id` the body sent; a rejected document is a 500 with nothing stored |
| OpportunityRoutes.LookupOpportunity | server/routes/opportunities.js:35 | populate finds the opportunity with the referenced id, or `null` when none has it |
| OpportunityRoutes.SignupViewsMembers | server/routes/opportunities.js:34-35 | the signups listing holds exactly the caller's signups, each joined with its opportunity |
| OpportunityRoutes.SignupViewsNewestFirst | server/routes/opportunities.js:36 | the signups listing is strictly newest first |
| OpportunityRoutes.MySignups | server/routes/opportunities.js:32-41 | exactly the caller's signups, populated, newest first |
| OpportunityRoutes.SignUp | server/routes/opportunities.js:44-68 | an existing signup for (caller, opportunity), whatever its status, gives 400 and no change; otherwise exactly one pending signup is appended and returned with 201; at most one signup per pair is kept |
| OpportunityRoutes.FindSignupForFindsPair | server/routes/opportunities.js:49-54 | the duplicate check finds a signup iff the pair has one |
| OpportunityRoutes.OneSignupPerPairAppend | server/routes/opportunities.js:58-62 | adding a signup for a pair without one keeps one signup per pair |
| OpportunityRoutes.AtMostOneSignupPerPair | server/routes/opportunities.js:44-68 | under the store invariant each (user, opportunity) pair has at most one signup, and one iff the duplicate check holds |
| OpportunityRoutes.CancelSignup | server/routes/opportunities.js:71-87 | removes exactly the record whose id and owner both match and replies 'Signup cancelled'; a foreign or unknown id gives the same 404 and no change |
| ResourceRoutes.ListResources | server/routes/resources.js:8-15 | every resource, strictly newest first |
| ResourceRoutes.ResourcesOfIsSublisting | server/routes/resources.js:18-25 | the caller's listing is the public listing with other owners' resources left out: exactly the caller's resources, in the same order |
| ResourceRoutes.MyResources | server/routes/resources.js:18-25 | exactly the caller's resources, newest first, an ordered sub-listing of the full listing |
| ResourceRoutes.CreateResource | server/routes/resources.js:28-38 | the owner is the caller regardless of the body; a schema violation is a 500 with nothing stored |
| ResourceRoutes.DeleteResource | server/routes/resources.js:41-57 | only the caller's record with that id is removed, replying 'Resource removed'; otherwise 404 and the store unchanged |
| TipRoutes.AuthorOf | server/routes/communityTips.js:10 | the joined author is the user with the tip's user_id, with that user's full_name, or null when there is none |
| TipRoutes.TipViewsCorrect | server/routes/communityTips.js:10 | one view per tip, each joined with its author, strictly newest first |
| TipRoutes.ListTips | server/routes/communityTips.js:8-15 | every tip, newest first, with its author's name |
| TipRoutes.CreateTip | server/routes/communityTips.js:18-28 | the owner is the caller; a rejected document is a 500 with nothing stored |
| TipRoutes.LikeTip | server/routes/communityTips.js:31-45 | an existing tip's likes rise by exactly one (a `null` count becomes 1) and only its update time changes, no other tip changes; an unknown id gives 404 'Tip not found' and no change |
| TipRoutes.LikesAddUp | server/routes/communityTips.js:30-37 | likes are counted, not toggled: n likes add n to the count (`null` counting as 0) and touch nothing but the counter and the update time |
| TipRoutes.Liked | server/routes/communityTips.js:36 | one like; LikesAddUp and LikeTip state that it adds exactly one and changes only likes and the update time |
| UserRoutes.GetProfile | server/routes/users.js:8-15 | the caller's record without its password, or null when the id matches no user |
| UserRoutes.UpdateKeepsIdentity | server/routes/users.js:23-29 | an update never changes id, email or password, and a field the body omits keeps its value |
| UserRoutes.EmptyValuesInUpdate | server/routes/users.js:23-27 | an empty string cannot clear full_name, location or avatar_url; an empty array does replace skills or interests |
| UserRoutes.UpdateIsIdempotent | server/routes/users.js:23-27 | applying the same update twice equals applying it once |
| UserRoutes.Updated | server/routes/users.js:23-27 | the `body.x \|\| user.x` update; UpdateKeepsIdentity, EmptyValuesInUpdate and UpdateIsIdempotent state its meaning |
| UserRoutes.UpdateKeepsUsersValid | server/routes/users.js:29 | saving a user with its id and email unchanged keeps ids and emails distinct |
| UserRoutes.UpdateProfile | server/routes/users.js:18-46 | the caller's record gets each field `body.x \|\| user.x`, the reply is the seven profile fields without password; a user id that no longer resolves gives 404 and no change |
| AuthRoutes.SignUp | server/routes/auth.js:8-37 | an existing email gives 400 'User already exists' and no new user; otherwise one user is added and the 201 reply carries its id, email, full_name and a token for that id; emails stay unique |
| AuthRoutes.NewUserKeepsUsersValid | server/routes/auth.js:12-22 | a user with a fresh id and an untaken email keeps ids and emails unique |
| AuthRoutes.SignIn | server/routes/auth.js:40-59 | the reply for the user with that email when the password matches, with a token for that user's id; the same 401 'Invalid email or password' for an unknown email and for a wrong password |
| AuthRoutes.SignedUpUserIsFound | server/routes/auth.js:12-44 | after a sign-up, a sign-in lookup by the same email finds the new account |
| Text.Lower | src/pages/Resources.tsx:98-100 | `toLowerCase` maps every character and keeps the length |
| Text.Split | src/pages/Profile.tsx:75-76 | `split(',')` yields at least one piece and no piece holds the separator |
| Text.SplitAfterPiece | src/pages/Profile.tsx:75-76 | a separator after a comma-free piece ends exactly that piece |
| Text.TrimIsTrimmed | src/pages/Profile.tsx:77 | `trim` leaves no white space at either end and leaves a trimmed string unchanged |
| Text.Trim | src/pages/Profile.tsx:77 | `trim`, characterised by TrimIsTrimmed and TrimRemovesOnlySpace |
| Text.TrimRemovesOnlySpace | src/pages/Profile.tsx:77 | `trim` removes only white space: its result is the part of `s` between a white-space prefix and a white-space suffix |
| Text.TrimStartDropsSpace | src/pages/Profile.tsx:77 | every character the leading trim drops is white space |
| Text.TrimEndDropsSpace | src/pages/Profile.tsx:77 | every character the trailing trim drops is white space |
| Text.Includes | src/pages/Resources.tsx:98-100 | `includes`; EmptySearchShowsAll and FilterResourcesCorrect rest on it |
| Text.ParseIntOfNumberString | src/pages/Resources.tsx:80 | `parseInt` reads back every integer the number field can show |
| Text.ParseInt | src/pages/Resources.tsx:80 | `parseInt` without a radix: NaN iff no digits follow the sign (its ensures), and ParseIntOfNumberString shows it reads back every integer |
| ResourcesPage.FilterResourcesCorrect | src/pages/Resources.tsx:95-108 | the shown resources are an ordered subsequence; a resource is shown iff the lower-cased term occurs in its name, description or location and the type selection is 'all' or its type |
| ResourcesPage.EmptySearchShowsAll | src/pages/Resources.tsx:97-105 | an empty term with 'all' shows every resource |
| ResourcesPage.FilterResources | src/pages/Resources.tsx:95-108 | the shown resources, characterised by FilterResourcesCorrect and EmptySearchShowsAll |
| ResourcesPage.QuantityInput | src/pages/Resources.tsx:80 | the coerced quantity is never 0 and is the parsed number whenever that is a non-zero number |
| ResourcesPage.QuantityInputOfNumber | src/pages/Resources.tsx:80 | a typed integer is kept, negatives included, except 0 which becomes 1 |
| ResourcesPage.QuantityInputWithoutDigits | src/pages/Resources.tsx:80 | input with no digits (NaN) becomes 1 |
| ResourcesPage.FilledFormIsAccepted | src/pages/Resources.tsx:58 | a form with a valid type and filled text fields is stored by the create route with the caller as owner and the form's values |
| ResourcesPage.EmptyFormIsRejected | src/pages/Resources.tsx:22-28 | the untouched form is refused for its empty name, location and description |
| ResourcesPage.ResourcesPage.HandleInputChange | src/pages/Resources.tsx:76-82 | the quantity field is coerced, every other field stored verbatim, nothing else changes |
| ResourcesPage.ResourcesPage.HandleCreateResource | src/pages/Resources.tsx:49-74 | no user: nothing posted, no state change; otherwise the form is posted, and after success the form closes and resets to offer, 1 and empty strings |
| OpportunitiesPage.FormCategoriesAreTheRest | src/pages/Opportunities.tsx:219 | the create form offers every category but 'All Categories', in order |
| OpportunitiesPage.FilterOpportunitiesCorrect | src/pages/Opportunities.tsx:128-141 | an ordered subsequence; an opportunity is shown iff the term occurs in title, description or location and the category is 'All Categories' or its own |
| OpportunitiesPage.FilterOpportunities | src/pages/Opportunities.tsx:128-141 | the shown opportunities, characterised by FilterOpportunitiesCorrect |
| OpportunitiesPage.PopulatedSignupsNeverMatch | src/pages/Opportunities.tsx:143-145 | on the populated signups the server sends, `isSignedUp` is false for every id |
| OpportunitiesPage.IsSignedUp | src/pages/Opportunities.tsx:143-145 | `isSignedUp`; PopulatedSignupsNeverMatch shows it is false on the listing the server sends, and HandleSignUp posts exactly when it is false |
| OpportunitiesPage.OpportunitiesPage.HandleSignUp | src/pages/Opportunities.tsx:66-93 | an id is posted iff a user is signed in and no loaded signup has that `opportunity_id` |
| OpportunitiesPage.OpportunitiesPage.HandleInputChange | src/pages/Opportunities.tsx:123-126 | the named field takes the typed value and nothing else changes |
| OpportunitiesPage.OpportunitiesPage.HandleCreateOpportunity | src/pages/Opportunities.tsx:95-121 | no user: nothing posted, no change; after a successful post the form closes and resets with category 'Community' and empty fields |
| ProfilePage.TrimAll | src/pages/Profile.tsx:77 | each piece is replaced by its trim, in order |
| ProfilePage.ParsedItemsAreClean | src/pages/Profile.tsx:75-83 | every parsed item is non-empty, comma-free and equal to its own trim |
| ProfilePage.ParseJoinRoundTrip | src/pages/Profile.tsx:50-83 | parsing the ', '-joined display of non-empty, trimmed, comma-free items gives back the list |
| ProfilePage.ParseList | src/pages/Profile.tsx:75-83 | the submitted list: every item is clean (ParsedItemsAreClean) and the joined display of clean items parses back to them (ParseJoinRoundTrip) |
| ProfilePage.JoinList | src/pages/Profile.tsx:50-51 | the form's display of a list; ParseJoinRoundTrip shows it loses nothing for clean items |
| ProfilePage.UntouchedFormKeepsUser | src/pages/Profile.tsx:47-90 | when the stored skills and interests are present and made of non-empty, trimmed, comma-free items, loading the profile and saving the untouched form leaves the stored user unchanged |
| ProfilePage.UntouchedFormFillsMissingLists | src/pages/Profile.tsx:47-90 | a missing skills or interests list is shown as "" and an untouched save stores `[]` for it, since `[]` is truthy |
| ProfilePage.ProfilePage.FetchProfile | src/pages/Profile.tsx:27-60 | nothing happens without a user; a returned profile fills the form with lists joined by ', '; loading ends |
| ProfilePage.ProfilePage.HandleInputChange | src/pages/Profile.tsx:62-65 | the named field takes the typed value |
| ProfilePage.ProfilePage.HandleSubmit | src/pages/Profile.tsx:67-103 | nothing is sent without a user; otherwise the parsed lists are sent, the editor stays open and loading ends |
| TipsPage.FilterTipsCorrect | src/pages/CommunityTips.tsx:126-128 | with 'All Categories' the tips are unchanged; otherwise exactly the tips of the category, in order |
| TipsPage.FilterTips | src/pages/CommunityTips.tsx:126-128 | the shown tips, characterised by FilterTipsCorrect |
| TipsPage.FallbackTipsShape | src/pages/CommunityTips.tsx:59-112 | ten fallback tips with distinct ids 1 to 10, each in a page category other than 'All Categories' |
| TipsPage.CommunityTipsPage.FetchTips | src/pages/CommunityTips.tsx:29-57 | the loaded tips, or the fallback list on failure; the featured tip is drawn from a non-empty list and kept when the list is empty; loading ends |
| TipsPage.CommunityTipsPage.GetNewRandomTip | src/pages/CommunityTips.tsx:114-124 | the new tip is one of the shown tips, so of the selected category; nothing changes when none is shown |
| TipsPage.CommunityTipsPage.SelectCategory | src/pages/CommunityTips.tsx:190 | a category button selects that category |
| Dashboard.ReshapeSignups | src/pages/Dashboard.tsx:37-43 | reshaping succeeds iff no signup's opportunity is null, and then keeps one entry per signup, in order |
| Dashboard.ReshapedSignupsCarryOpportunity | src/pages/Dashboard.tsx:37-43 | each reshaped signup keeps id, owner and status, and has `opportunity` equal to the populated object and `opportunity_id` equal to its id |
| Dashboard.Reshape | src/pages/Dashboard.tsx:37-43 | one signup reshaped; ReshapeSignups and ReshapedSignupsCarryOpportunity state what it keeps and when it fails |
| Dashboard.Preview | src/pages/Dashboard.tsx:98 | the first min(3, n) items, in order |
| Dashboard.PreviewAndMoreCoverAll | src/pages/Dashboard.tsx:98-126 | the preview plus the "+N more" count is exactly the number of items |
| Dashboard.StatusBadges | src/pages/Dashboard.tsx:110-117 | confirmed is green, pending yellow, cancelled gray, each labelled with its capitalised name |
| Dashboard.StatusColour | src/pages/Dashboard.tsx:110-116 | the badge colour of a status, stated for every status by StatusBadges |
| Dashboard.TypeBadges | src/pages/Dashboard.tsx:162-167 | offer is teal and request orange, each labelled with its capitalised name |
| Dashboard.TypeColour | src/pages/Dashboard.tsx:162-166 | the badge colour of a type, stated for both types by TypeBadges |
| AuthContext.Restored | src/context/AuthContext.tsx:29-42 | after `checkAuth` loading is false |
| AuthContext.RestoreNeedsBothKeys | src/context/AuthContext.tsx:30-35 | the user changes only when both 'token' and 'user' are truthy, and then to what the stored user parses to |
| AuthContext.Established | src/context/AuthContext.tsx:56-58 | a successful sign-in or sign-up: loading ends; KeysStayTogether and ReloadRestoresSession state what it stores |
| AuthContext.Failed | src/context/AuthContext.tsx:62-67 | a failed sign-in or sign-up: loading ends; KeysStayTogether shows storage keeps both keys or neither |
| AuthContext.SignedOut | src/context/AuthContext.tsx:92-107 | sign-out: loading ends; ReloadAfterSignOut shows nobody is restored afterwards |
| AuthContext.UnparsableUserIsDropped | src/context/AuthContext.tsx:36-38 | a stored user that fails to parse removes both keys, touches no other key, and leaves the user as it was |
| AuthContext.KeysStayTogether | src/context/AuthContext.tsx:29-107 | every operation keeps 'token' and 'user' both present or both absent |
| AuthContext.ReloadRestoresSession | src/context/AuthContext.tsx:33-58 | when the token is non-empty and parse reads back what stringify wrote, a reload after sign-in restores the signed-in user |
| AuthContext.ReloadAfterSignOut | src/context/AuthContext.tsx:33-97 | after signing out a reload restores nobody |
| AuthContext.AuthProvider.CheckAuth | src/context/AuthContext.tsx:29-42 | the provider's state becomes the `Restored` transition of its old state |
| AuthContext.AuthProvider.SignUp | src/context/AuthContext.tsx:47-68 | success stores 'token' = data.token and 'user' = the stringified data and sets the user; a failure changes only loading, which ends false |
| AuthContext.AuthProvider.SignIn | src/context/AuthContext.tsx:70-90 | the same as sign-up, for the sign-in reply |
| AuthContext.AuthProvider.SignOut | src/context/AuthContext.tsx:92-107 | both keys are removed and the user becomes null |
| AuthContext.UseAuth | src/context/AuthContext.tsx:116-122 | outside a provider it throws 'useAuth must be used within an AuthProvider'; inside it yields the provider |

## Left out

- Express wiring, CORS, dotenv, the database connection and `listen` (server/index.js) are plumbing.
- server/middleware/auth.js is not part of this model. The `protect` middleware, Bearer parsing, JWT signing, secrets and expiry are not modelled. A token is its subject id, and the caller's id is a parameter.
- server/models/User.js and server/models/Opportunity.js are not part of this model.
  - Password hashing is a parameter.
  - `matchPassword` is a parameter.
  - `User.create` refusing a document is a parameter carrying its message.
  - Email normalisation by the User schema, if any, is not modelled: emails match exactly.
  - The model requires title, description, category, location, date, contact and user_id of an opportunity.
- The 400 'Invalid user data' branch of sign-up is not modelled. `User.create` either returns a user or throws.
- Mongoose internals are reduced to their effect:
  - `populate` is a lookup join.
  - Sorting is a function over the stored sequence. Ties keep creation order, but MongoDB does not promise any order among equal keys, so the model fixes one of the orders the query may return.
  - A malformed id (CastError) and every store fault are not modelled. Each would be a 500.
- Ids and timestamps come from one counter. Real ObjectIds and clock times are not modelled.
- A 500 reply's `message` text for a validation failure is not modelled. The model replies with the list of failing paths instead.
- An absent `opportunity_id` in the signup body is not modelled: the route takes an id.
- A `null` signup `status` is not modelled: no route sends a status, and the signup route always creates a pending one.
- Concurrency is not modelled. The findOne-then-create sequences in the signup and registration routes, and the read-increment-save in the like route, are not atomic. Every property holds for sequential execution.
- Unicode case mapping is not modelled: `toLowerCase` and `toUpperCase` act on ASCII letters only.
- A number outside the exactly representable range in `parseInt` is not modelled. Integers are unbounded.
- `Math.random` is a free choice of an index within bounds.
- Not modelled, because they have no logic:
  - rendering, toasts, navigation and modals;
  - `handleSendMessage`;
  - `toLocaleDateString`;
  - the `showFilters` toggle;
  - the "Welcome" name fallback.
- The fetch functions are not operations of the model: `fetchResources`, `fetchOpportunities`, the dashboard's data effect and the refreshes after a successful post.
  - Their results are parameters of the methods that consume them.
  - `SignupView`, the shape the signups listing sends, is the dashboard's and the Opportunities page's input.
- The client tip shape (`text`, `category`) differs from the server schema (title, description). The page is modelled on its own shape, as written.
- TipModel.NewTip: `likes` is not guaranteed to be a non-negative number, because the create route spreads the request body: a client-supplied number, negative included, or `null` is stored as sent.
- ResourceModel.NewResource: the schema has no lower bound on quantity, so quantity ≥ 1 is not a property of the stored records. The client's `min="1"` attribute is a browser hint and is not modelled.
- A failed validation gets a 500 from the catch block of each create route.
- ResourceRoutes.CreateResource, TipRoutes.CreateTip, OpportunityRoutes.CreateOpportunity: a body's `_id`, `createdAt` and `updatedAt` are not modelled. Mongoose keeps a client-chosen `_id` and `createdAt`; the model always assigns both from the clock, so `Database.Valid` (ids distinct, creation times increasing) holds only for bodies without them.
- ResourceRoutes.ListResources, ResourceRoutes.MyResources, TipRoutes.ListTips: the newest-first order is the reverse of creation order. With a client-set `createdAt` the database's `sort({ createdAt: -1 })` can order records differently, which the model does not capture.
- Number paths hold integers: a non-integral `quantity` or `likes` (`1.5`) is not modelled.
