# Drink Depth CMS policy rules, modelled in Dafny

This project models the rules the Drink Depth admin application adds on top
of its CMS framework, Firebase and Algolia. It covers:

- the login gate and the role payload it stores on the session;
- the permission triple (`edit`, `create`, `delete`) of each collection;
- the navigation menu, which differs between production and other builds;
- the two computed table columns;
- the coffee save and delete hooks, and the value sets and array bounds
  the coffee schema declares;
- the blog `status` rule, default values, content blocks and export column;
- the blog preview's filtering and dispatch of content blocks;
- the routing of text searches to search indices.

Modules, one per source file:

- `Common` (`common.dfy`): optional values, thrown errors, references,
  the signed-in user, JavaScript truthiness, and `includes`, `endsWith` and
  `toUpperCase` with lemmas that tie them to plain definitions.
- `SampleApp` (`sample_app.dfy`): the authenticator, permissions,
  navigation builder and computed columns.
- `CoffeeSchema` (`coffee_schema.dfy`): the coffee record and enumerations,
  `onPreSave` as a specification function plus an in-place method on the
  caller's values object, and `onPreDelete`.
- `BlogSchema` (`blog_schema.dfy`): the blog entry, the `status` options,
  the defaults, the declared content blocks with encode and decode, and the
  export column.
- `BlogEntryPreview` (`blog_entry_preview.dfy`): the header fallbacks, the
  content filter and dispatch, and the `Products`, `Text`, `Images` and
  `StorageImage` components.
- `TextSearch` (`text_search.dfy`): building the client at load time and
  routing paths to indices.

Two points about the code that the model keeps:

- Two uids receive the admin role.
- The coffee save hook checks only that the company reference has a
  non-empty id. It does not check that the company exists.

## Model

| member | source | states |
|---|---|---|
| `Common.IncludesSpec` | src/SampleApp/SampleApp.tsx:234 | the left-to-right `includes` scan succeeds iff the text occurs at some position |
| `Common.IncludesInfix` | src/SampleApp/SampleApp.tsx:234 | any string `p + sub + q` includes `sub` |
| `Common.EndsWithSpec` | src/SampleApp/schemas/coffee_schema.tsx:282 | `endsWith(suffix)` holds iff the string is some prefix followed by `suffix` |
| `Common.ToUpper` | src/SampleApp/SampleApp.tsx:185 | same length; each ASCII lower-case letter becomes its upper-case form and every other character is kept |
| `Common.ToUpperIdempotent` | src/SampleApp/SampleApp.tsx:185 | upper-cased text has no lower-case ASCII letter, and upper-casing it again changes nothing |
| `SampleApp.RoleDataFor` | src/SampleApp/SampleApp.tsx:244-248 | the role list is exactly `[admin]` when a user is present and its uid is one of the two listed uids, and `[]` for every other session |
| `SampleApp.Authenticate` | src/SampleApp/SampleApp.tsx:230-253 | throws `Stupid Flanders!` iff the user's e-mail includes `flanders`; otherwise records the role payload, which holds `admin` iff the uid is listed, and allows iff a user is present |
| `SampleApp.BlockedEmailAlwaysRejected` | src/SampleApp/SampleApp.tsx:234-236 | an e-mail with `flanders` anywhere in it is rejected for every uid, admin uids included, before any role is set |
| `SampleApp.NoUserDenied` | src/SampleApp/SampleApp.tsx:244-252 | with no user the payload is `{roles: []}` and access is refused |
| `SampleApp.ProductsPermissions` | src/SampleApp/SampleApp.tsx:64-70 | edit and create always; delete iff the session is admin |
| `SampleApp.CoffeesPermissions` | src/SampleApp/SampleApp.tsx:85-91 | edit, create and delete each hold iff the session is admin; a missing payload counts as not admin |
| `SampleApp.CompaniesPermissions` | src/SampleApp/SampleApp.tsx:105-111 | nothing is allowed for any session |
| `SampleApp.BlogPermissions` | src/SampleApp/SampleApp.tsx:161-167 | edit, create and delete each hold iff the session is admin |
| `SampleApp.PermissionsAfterLogin` | src/SampleApp/SampleApp.tsx:244-250 | after a login that was not rejected, the stored payload makes the session admin iff the uid is listed; coffees and blog grant the same; products grant at least what coffees grant; companies grant nothing |
| `SampleApp.BuildNavigation` | src/SampleApp/SampleApp.tsx:255-279 | collections are coffees then blog, plus companies as a third entry iff `NODE_ENV` is not `production`; products and users never appear; views are the single custom view |
| `SampleApp.NavigationSearchCoverage` | src/SampleApp/SampleApp.tsx:76-112 | coffees and companies enable text search, but searches in them never reach an index; blog search runs iff the credentials are set |
| `SampleApp.UsersAdditionalColumn` | src/SampleApp/SampleApp.tsx:121-129 | the text is `Generated column: ` followed by the rendered first name (`undefined` when missing) |
| `SampleApp.UsersAdditionalColumnInjective` | src/SampleApp/SampleApp.tsx:125-126 | two users get the same column text iff their first names render the same |
| `SampleApp.TestFullNameColumn` | src/SampleApp/SampleApp.tsx:182-187 | a string name gives its upper-cased form, character by character; anything else gives `Nope` |
| `SampleApp.TestFullNameColumnStable` | src/SampleApp/SampleApp.tsx:182-187 | for string names the column has no lower-case ASCII letter and is a fixed point; it is a fixed point iff the name is a string |
| `CoffeeSchema.ParseTaste` | src/SampleApp/schemas/coffee_schema.tsx:93-144 | a stored taste value is a level iff it is one of the five declared keys, and it reads back as the level with that key |
| `CoffeeSchema.TasteRoundTrip` | src/SampleApp/schemas/coffee_schema.tsx:97-103 | every level's key is declared and reads back as that level |
| `CoffeeSchema.ParseKind` | src/SampleApp/schemas/coffee_schema.tsx:145-155 | `type` is a kind iff it is `blend`, `single_origin` or `decaffeination` |
| `CoffeeSchema.KindRoundTrip` | src/SampleApp/schemas/coffee_schema.tsx:149-153 | every kind's key is declared and reads back as that kind |
| `CoffeeSchema.ParseRoast` | src/SampleApp/schemas/coffee_schema.tsx:156-168 | `roasting` is a degree iff it is one of the five declared keys |
| `CoffeeSchema.RoastRoundTrip` | src/SampleApp/schemas/coffee_schema.tsx:160-166 | every degree's key is declared and reads back as that degree |
| `CoffeeSchema.ConformingEnumsParse` | src/SampleApp/schemas/coffee_schema.tsx:93-168 | in a record within the declared value sets, each of the four taste fields, `type` and `roasting` is missing or reads back as a taste level, kind or degree whose key is the stored text |
| `CoffeeSchema.StampUid` | src/SampleApp/schemas/coffee_schema.tsx:259-261 | for `new`, `uid` becomes the acting user's uid, and a missing user throws; any other status leaves the record unchanged |
| `CoffeeSchema.PreSave` | src/SampleApp/schemas/coffee_schema.tsx:251-270 | rejected iff the company or its id is missing or empty, or a new record has no acting user; on success `company_id == company.id`, `uid` is stamped only for `new`, and nothing else changes |
| `CoffeeSchema.PreSaveIdempotent` | src/SampleApp/schemas/coffee_schema.tsx:259-269 | saving the hook's own output again with the same status and user gives the same record |
| `CoffeeSchema.PreSavePreservesSchema` | src/SampleApp/schemas/coffee_schema.tsx:263-267 | a successful save keeps the declared value sets, array bounds (flavors at most 3, tags and related coffees at most 4) and required fields, and leaves `company_id` equal to `company.id` |
| `CoffeeSchema.CoffeeValues.OnPreSave` | src/SampleApp/schemas/coffee_schema.tsx:251-270 | returns what `PreSave` gives; the caller's object is the returned record on success; if the company check throws, the uid already written for a new record stays written |
| `CoffeeSchema.OnPreDelete` | src/SampleApp/schemas/coffee_schema.tsx:280-284 | deletion is allowed iff the acting user has an e-mail ending in `@camberi.com`; otherwise it throws the fixed message |
| `CoffeeSchema.OnPreDeleteAllowsOnlyDomain` | src/SampleApp/schemas/coffee_schema.tsx:281-283 | allowed iff the e-mail is some text followed by `@camberi.com`; an empty e-mail is refused |
| `BlogSchema.EncodeBlock` | src/SampleApp/schemas/blog_schema.tsx:78-133 | a declared block is stored with its kind (`image`, `text` or `products`) in `type` |
| `BlogSchema.DecodeBlock` | src/SampleApp/schemas/blog_schema.tsx:78-133 | an entry decodes only if it is truthy and its `type` is the tag of the decoded kind |
| `BlogSchema.BlockRoundTrip` | src/SampleApp/schemas/blog_schema.tsx:79-80 | decoding an encoded block gives it back, and encoding a decoded entry gives back the entry |
| `BlogSchema.StatusOptions` | src/SampleApp/schemas/blog_schema.tsx:51-65 | the options are `published` then `draft`; `published` is disabled iff `image_url` or `name` is missing or empty; `draft` is never disabled |
| `BlogSchema.SelectableStatusesSpec` | src/SampleApp/schemas/blog_schema.tsx:57-63 | `draft` can always be picked, `published` iff the image and name are set, and nothing else is offered |
| `BlogSchema.PublishedNeedsImageAndName` | src/SampleApp/schemas/blog_schema.tsx:60 | a status picked from the offered options is `published` or `draft`, and `published` only with a non-empty image and name |
| `BlogSchema.DefaultValuesIncomplete` | src/SampleApp/schemas/blog_schema.tsx:168-171 | the defaults set only the status, so a fresh entry lacks the required name and content, and every entry that has its required fields differs from the defaults in both |
| `BlogSchema.DefaultStatusSelectable` | src/SampleApp/schemas/blog_schema.tsx:168-171 | the default status is `draft`, which can always be picked; a fresh entry cannot be published |
| `BlogSchema.AdditionalExportValue` | src/SampleApp/schemas/blog_schema.tsx:177-183 | the value is `Additional exported value ` followed by the entity id |
| `BlogSchema.AdditionalExportValueInjective` | src/SampleApp/schemas/blog_schema.tsx:181 | distinct ids export distinct values |
| `BlogEntryPreview.Header` | src/SampleApp/custom_schema_view/BlogEntryPreview.tsx:52-57 | header URL, title and tags are the entry's values when present, and `""`, `""` and `[]` when missing |
| `BlogEntryPreview.RenderEntry` | src/SampleApp/custom_schema_view/BlogEntryPreview.tsx:64-92 | `text` gives a text block with the value; `image` gives a link and image whose href and src are the value; `products` gives a products block; any other or missing type gives the error block `Unexpected value in blog entry` |
| `BlogEntryPreview.KeepTruthy` | src/SampleApp/custom_schema_view/BlogEntryPreview.tsx:62 | the result is no longer than the input and holds only truthy entries |
| `BlogEntryPreview.RenderAll` | src/SampleApp/custom_schema_view/BlogEntryPreview.tsx:63-93 | one block per entry, the k-th being the dispatch of the k-th entry |
| `BlogEntryPreview.PreviewContent` | src/SampleApp/custom_schema_view/BlogEntryPreview.tsx:59-94 | a missing entry or missing `content` renders no blocks |
| `BlogEntryPreview.TruthyPositionsSelect` | src/SampleApp/custom_schema_view/BlogEntryPreview.tsx:60-63 | the number of survivors equals the number of truthy positions, and the k-th survivor is the entry at the k-th truthy position |
| `BlogEntryPreview.KeepTruthyIsOrderedSelection` | src/SampleApp/custom_schema_view/BlogEntryPreview.tsx:60-63 | the filter keeps exactly the truthy entries in their original order: the positions increase and every truthy position is kept |
| `BlogEntryPreview.PreviewBlockAt` | src/SampleApp/custom_schema_view/BlogEntryPreview.tsx:60-93 | the output has one block per truthy entry, and the k-th block is the dispatch of the k-th truthy entry |
| `BlogEntryPreview.KeepTruthyAppend` | src/SampleApp/custom_schema_view/BlogEntryPreview.tsx:62 | filtering a concatenation is concatenating the filtered parts |
| `BlogEntryPreview.PreviewOfDeclaredContent` | src/SampleApp/custom_schema_view/BlogEntryPreview.tsx:60-92 | content written through the schema's block kinds previews one block per stored block, in order, with no error block |
| `BlogEntryPreview.FetchedProducts` | src/SampleApp/custom_schema_view/BlogEntryPreview.tsx:289-298 | at most one entity per reference, each one returned by a fetch of one of the references |
| `BlogEntryPreview.FetchedProductsAppend` | src/SampleApp/custom_schema_view/BlogEntryPreview.tsx:289-298 | results follow reference order: fetching a concatenation is concatenating the fetched parts |
| `BlogEntryPreview.FetchedProductsAllFound` | src/SampleApp/custom_schema_view/BlogEntryPreview.tsx:289-298 | when every fetch succeeds, the k-th card is the k-th reference's entity |
| `BlogEntryPreview.ProductsComponent` | src/SampleApp/custom_schema_view/BlogEntryPreview.tsx:283-317 | nothing without references; while the current fetches are pending, a spinner until the first fetches settle and the previous cards after that (the state is not reset); once they settle, the cards are exactly the fetched entities with failed fetches removed, in reference order |
| `BlogEntryPreview.TextComponent` | src/SampleApp/custom_schema_view/BlogEntryPreview.tsx:271-281 | renders nothing iff the text is missing or empty, otherwise renders that text |
| `BlogEntryPreview.StorageImage` | src/SampleApp/custom_schema_view/BlogEntryPreview.tsx:247-269 | nothing iff the path is empty; otherwise an image whose source is the resolved URL |
| `BlogEntryPreview.ImagesComponent` | src/SampleApp/custom_schema_view/BlogEntryPreview.tsx:226-245 | nothing iff the path list is missing; otherwise one image slot per path, in order |
| `TextSearch.IndexOn` | src/SampleApp/text_search.ts:34-36 | an index exists iff the client does, and it is opened on that client under the given name |
| `TextSearch.Load` | src/SampleApp/text_search.ts:8-36 | a client exists iff `process` is defined and both credentials are non-empty; the three indices follow the client; the "not enabled" error is logged iff `process` is undefined |
| `TextSearch.SearchOn` | src/SampleApp/text_search.ts:44 | a search call is made iff the index exists, with the query unchanged |
| `TextSearch.TextSearchController` | src/SampleApp/text_search.ts:38-51 | `products`, `users` and `blog` go to their own index; every other path gives no search |
| `TextSearch.SearchRouting` | src/SampleApp/text_search.ts:42-50 | after loading, a search runs iff the path is one of the three and both credentials are set; it goes to the index named after the path, on the client built from those credentials |
| `TextSearch.MissingCredentialsAreSilent` | src/SampleApp/text_search.ts:10-32 | with `process` defined but a credential missing or empty, there is no client, nothing is logged, and every path gives no search |

## Left out

- Rendering is not modelled: the framework app, the MUI components, `PostHead` and `ProductPreview` layout, the markdown CSS and React keys. The model stops at the props and blocks handed to them.
- The published date in the preview header is not modelled. It is formatted with `toLocaleDateString`, which depends on the locale.
- The upload file name builder of the coffee image is not modelled. It depends on the clock and the locale.
- Analytics and `console` logging are left out. The one log whose condition matters, "text search not enabled", is a field of `TextSearch.Loaded`.
- Async work is not modelled as such. `fetchEntity` and `getDownloadURL` are function parameters that give the settled answer. The `useState`/`useEffect` timing is reduced to the spinner state in `ProductsComponent`. The 100 ms delay in the export column is dropped.
- The search vendor is not modelled. `algoliasearch`, `initIndex` and `performAlgoliaTextSearch` are datatype values that record what was asked. Ranking and results are not modelled.
- Framework-enforced schema semantics are not modelled: `required`, `autoValue: 'on_create'`, `readOnly` and hidden fields. Required fields are stated only as predicates (`HasRequiredFields`).
- The coffee schema's `defaultValues` (`currency`, `publisher`) are left out. They name fields the coffee record does not have.
- The company schema and the product, user, test and custom-resolver schemas are not part of this model. The collections that use them appear only as path, name, group and search flag.
- `CoffeeSchema.PreSave`: a reference's id is a string, so a reference with an undefined id cannot be expressed. The model covers a missing company and an empty id.
- `Common.ToUpper`: only ASCII letters are upper-cased. Other case mappings are not modelled: 'é' stays 'é', and 'ß' stays one character where `toUpperCase` gives "SS".
- `SampleApp.TestFullNameColumn`: upper-casing covers ASCII letters only, through `Common.ToUpper`. Other scripts' case mappings are not modelled.
- `SampleApp.ProductsPermissions`, `SampleApp.CoffeesPermissions`, `SampleApp.BlogPermissions`: with no role payload, `extra?.roles.includes('admin')` is `undefined`, not `false`. The model types every flag as a boolean and gives `false`; how the framework reads an unset flag is not modelled. After any login that is not rejected a payload is always present (`SampleApp.PermissionsAfterLogin`).
- `CoffeeSchema.PreSave`: the message for a missing user, `NoUserError`, is the TypeError text of the V8 engine for a `null` user. Other engines, and an `undefined` user, word it differently.
- `SampleApp.UsersAdditionalColumn`: `first_name` is a string or missing. Other JavaScript values in the template literal (numbers, `null`) are not modelled.
- `BlogEntryPreview.ProductsComponent`: it takes a reference list or nothing. A `products` block whose value is not a list is not modelled.
- `BlogEntryPreview.ProductsComponent`: the effect has no cleanup, so when `references` changes while an earlier `Promise.all` is still pending, the earlier one may resolve last and leave cards for references that are no longer current. The model's `settled` answer is always the one for the current references; that race, and the same one for the resolved URL in `BlogEntryPreview.StorageImage`, is not modelled.
- `BlogEntryPreview.ProductsComponent`: a rejected `fetchEntity` is not modelled. `Promise.all` has no `catch`, so in the source one rejection leaves the spinner up for good. The model's fetch always settles, with an entity or with nothing.
- `BlogEntryPreview.TextComponent`: it takes a string or nothing. A `text` block whose value is not a string is not modelled.
- Falsy content elements are all one value, `Falsy`. Every other element is read as an object with an optional `type`.
- Timestamps (`created_at`, `roasting_date`, `publish_date`) are plain numbers. No date arithmetic is done on them.
