# Auction client: session store and component catalog, modelled in Dafny

This project models the two parts of the mobile auction client that have behaviour of their own.

- **The authentication session store** (`src/store/authStore.ts`) holds three fields: `user`, `isAuthenticated` and `isLoading`. It offers four asynchronous operations: `login`, `signup`, `logout` and `updateProfile`. Each operation sets `isLoading`, calls the remote authority, reconciles local state inside `try/catch/finally`, and re-throws any error.
- **The component catalog** (`src/ai/component-catalog.ts`) is a static table of nine libraries. Each library is an ordered list of named components with their details. Three queries read it: `generateComponent`, `getTotalComponents` and `searchComponents`.

Files:

- `js.dfy` (module `Js`): the JavaScript conventions the source relies on.
  - `Option` stands for a missing property.
  - `Nullable` keeps `undefined` and `null` apart, because `!== null` treats them differently.
  - `Or` is `||` on strings. A missing or empty string falls back.
- `user_types.dfy` (module `UserTypes`): the `User` and `NotificationPreferences` records, and `Partial<User>` as `UserPatch`.
  - `ApplyPatch` is the spread `{...user, ...updates}`.
  - `Field` gives the key/value view of a user. `PatchField` gives the keys a patch carries. The spread is stated key by key against these two views.
- `auth_store.dfy` (module `AuthStore`): the store as a class `Store` with the three fields.
  - The remote calls are inputs: each method takes the reply it would receive (the sign-in result, the profile row, the lookup result, the error flags).
  - Each method returns the settled promise as an `Outcome` and the requests it sent, in order.
  - `Valid()` is the invariant `isAuthenticated <==> user != null`.
- `ascii_text.dfy` (module `AsciiText`): ASCII lower-casing, and `includes` as `Contains`. `Contains` is proved equal to "occurs at some offset".
- `component_catalog.dfy` (module `ComponentCatalog`): the catalog data (108 components), the three queries, and their properties.
  - `searchComponents` is a method with two nested loops. It is proved equal to `Search`, a filter over the entries in catalog order.

Some behaviours follow the code as written:

- `is_verified` is `email_confirmed_at !== null`. A remote user whose confirmation timestamp is *absent* (`undefined`) is therefore marked verified. `BuildUser` keeps this: only `Null` gives `false`.
- `username` and `updated_at` use `||`. An *empty* profile username becomes `''`, and an empty profile `updated_at` becomes the remote `created_at`. `notification_preferences` is an object, so it falls back only when missing.
- `signup`'s uniqueness check uses `.single()`. The sign-up is refused only when that lookup returns a row. `usernameTaken` is that fact.
- `generateComponent` builds both templates before looking one up. A missing `props` object therefore throws a TypeError whatever the key. `GenerateComponent` returns `PropsTypeError` in that case.

Three more facts about the code:

- The code keeps `isAuthenticated == (user != null)`. It never checks that the user's id is non-empty.
- `login` makes two remote calls: the sign-in, then the profile lookup.
- `updateProfile` rejects a call with no current user before `isLoading` is set, so `isLoading` is left as it was.

## Model

| member | source | states |
|---|---|---|
| `Js.Or` | src/ai/component-catalog.ts:159-162 | `v \|\| fallback` on a string gives either the fallback or the value itself, and never an empty string when the fallback is non-empty (the reason for `\|\|` over `??`) |
| `UserTypes.ApplyPatchIsSpread` | src/store/authStore.ts:124 | shallow merge: under every key of `User`, the merged user holds the patch's value if the patch carries the key, and the old value otherwise |
| `UserTypes.FieldsDetermineUser` | src/types/index.ts:2-14 | a user is determined by the values under its eleven keys, so the key-by-key statement of the merge fixes the whole record |
| `UserTypes.ApplyPatchComposes` | src/store/authStore.ts:124 | spreading `p` and then `q` equals spreading the single patch `{...p, ...q}` |
| `UserTypes.ApplyPatchIdempotent` | src/store/authStore.ts:124 | applying the same update twice gives the same user as applying it once |
| `UserTypes.EmptyPatchIsIdentity` | src/store/authStore.ts:124 | an update with no keys leaves the user unchanged |
| `UserTypes.BioOnlyPatch` | src/store/authStore.ts:124 | updating only `bio` sets `bio` and leaves every other field identical |
| `AuthStore.BuildUser` | src/store/authStore.ts:32-49 | the logged-in user copies `id`, `email` and `created_at` from the remote user; `is_verified` holds iff `email_confirmed_at` is not `null`; `username` defaults to `''`; `updated_at` falls back to the remote `created_at`; preferences default to (true, true, true, true, false); `full_name`, `avatar_url` and `bio` come from the profile row |
| `AuthStore.Store.constructor` | src/store/authStore.ts:10-12 | the store starts with no user, not authenticated, not loading, and satisfies the invariant |
| `AuthStore.Store.Persist` | src/store/authStore.ts:136 | the persisted projection is `{user, isAuthenticated}` and satisfies the same invariant as the store |
| `AuthStore.Store.Login` | src/store/authStore.ts:14-59 | `isLoading` ends false; a sign-in error rejects and leaves `user` and `isAuthenticated` unchanged; sign-in without a user resolves and changes nothing; sign-in with a user looks up its profile by id, sets `user` to `BuildUser(...)` and `isAuthenticated` to true; the invariant is kept |
| `AuthStore.Store.Signup` | src/store/authStore.ts:61-95 | may change only `isLoading`, which ends false; a taken username rejects with "Username already taken" and sends no sign-up request; otherwise one sign-up request is sent and its error, if any, rejects the call |
| `AuthStore.Store.Logout` | src/store/authStore.ts:97-109 | `isLoading` ends false; success clears `user` and `isAuthenticated`; a sign-out error rejects and leaves both unchanged |
| `AuthStore.Store.UpdateProfile` | src/store/authStore.ts:111-131 | with no user, rejects with "No user logged in", sends nothing and changes no field, `isLoading` included; otherwise sends the update for the current user's id, ends with `isLoading` false, and on success sets `user` to the shallow merge, while on a remote error `user` stays unchanged |
| `AsciiText.ContainsIffOccurs` | src/ai/component-catalog.ts:197 | `includes` holds exactly when the needle occurs in the string at some offset |
| `AsciiText.RecasedLowerEqual` | src/ai/component-catalog.ts:197 | a string with any of its letters switched to upper or lower case lower-cases to the same string as the original |
| `ComponentCatalog.EntriesCount` | src/ai/component-catalog.ts:190-192 | the `reduce` over library key counts equals the number of catalog entries |
| `ComponentCatalog.EntriesAreCatalogEntries` | src/ai/component-catalog.ts:195-196 | the entry list in walk order holds exactly the (library, component, details) triples of the catalog |
| `ComponentCatalog.EntriesDistinct` | src/ai/component-catalog.ts:4-149 | with unique object keys, no entry appears twice in the walk |
| `ComponentCatalog.GetTotalComponents` | src/ai/component-catalog.ts:190-192 | `getTotalComponents()` is the number of entries in the catalog |
| `ComponentCatalog.CatalogTotal` | src/ai/component-catalog.ts:4-149 | the catalog holds 108 components |
| `ComponentCatalog.SearchComponents` | src/ai/component-catalog.ts:193-202 | the nested `forEach` walk returns exactly the matching entries in catalog order |
| `ComponentCatalog.Positions` | src/ai/component-catalog.ts:195-201 | each result sits at a strictly increasing position of the entry list, and is the entry found there |
| `ComponentCatalog.SearchSound` | src/ai/component-catalog.ts:196-198 | every result is a catalog entry, with that entry's details, whose lower-cased name includes the lower-cased query |
| `ComponentCatalog.SearchComplete` | src/ai/component-catalog.ts:195-199 | every catalog entry whose lower-cased name includes the lower-cased query is among the results |
| `ComponentCatalog.SearchOrdered` | src/ai/component-catalog.ts:195-201 | results follow catalog order (library first, then entry) and, with unique keys, contain no duplicates |
| `ComponentCatalog.SearchEmptyQuery` | src/ai/component-catalog.ts:197 | the empty query returns every entry in catalog order |
| `ComponentCatalog.SearchBound` | src/ai/component-catalog.ts:190-197 | no search returns more results than the total component count |
| `ComponentCatalog.SearchCaseInsensitive` | src/ai/component-catalog.ts:197 | re-casing any letters of the query leaves the results unchanged |
| `ComponentCatalog.SearchUpperCaseQuery` | src/ai/component-catalog.ts:197 | searching for the upper-cased query gives the same results as the query itself |
| `ComponentCatalog.GenerateComponent` | src/ai/component-catalog.ts:152-184 | a missing `props` object throws; for `rne.Button` the Button template is filled with `title`, `type`, `size` and `onPress`, defaulting to `'Click Me'`, `'solid'`, `'md'` and `'() => {}'`; for `nativeBase.Card` the Card template is filled with `title` and `content`, defaulting to `'Card Title'` and `'Card content goes here'` |
| `ComponentCatalog.TemplateKey` | src/ai/component-catalog.ts:183 | the key `library.type` equals a dot-free template key exactly when `library` and `type` are that key's two parts |
| `ComponentCatalog.GenerateComponentCases` | src/ai/component-catalog.ts:153-183 | the result is the Button template iff the pair is `rne`/`Button`, the Card template iff it is `nativeBase`/`Card`, and exactly `// Component <type> from <library>` otherwise |

## Left out

- Remote authority: the Supabase client, its sessions, tables and network are not modelled. Each reply is an input of the method that receives it. The profile-lookup error of `login` and the lookup error of `signup` are ignored by the code and do not appear.
- Logging: the `console.error` calls before each re-throw are I/O.
- Persistence: zustand `persist`, JSON serialisation and AsyncStorage are I/O. Only the projection `Persist` is modelled, not rehydration.
- Concurrency: each operation is atomic. Overlapping calls, which can leave `currentUser` stale or clobber `isLoading`, are not modelled. `isLoading` is true only inside a method body, so the model cannot observe it as true.
- `AuthStore.BuildUser`: `email!` is taken as always present. `null` and `undefined` profile columns both become `None`.
- `UserTypes.ApplyPatchIsSpread`: putting `undefined` under a required key (`id`, `email`, …), which `Partial<User>` allows, is not modelled. Optional keys can be put back to `undefined`.
- `ComponentCatalog.GenerateComponent`: props are strings or missing. A non-string truthy prop (a function passed as `onPress`) stands for its string conversion. A falsy non-string prop (`0`, `false`, `null`) must be given as missing.
- `ComponentCatalog.SearchComponents`: it takes the catalog as a parameter; the source reads its module constant `ComponentCatalog` (called `Catalog` here).
- `ComponentCatalog.SearchOrdered`: it assumes unique keys (`WellFormed`), which JavaScript object literals guarantee. The model does not prove this for the concrete catalog.
- Component details: kept as the literal text of each entry's value, an opaque value the search passes through.
- The JSX inside the templates is an opaque string.
- Case folding: JavaScript's Unicode `toLowerCase` is modelled as ASCII lower-casing.
- Not part of this model:
  - `src/services/supabase.ts`: client set-up, the environment-variable check, image upload, and the realtime subscription. Its cancel closure is not guarded against being called twice.
  - `src/hooks/useAuth.tsx`: session bridging through React effects and a listener.
  - `src/store/themeStore.ts`, the UI components, navigation, and `app.config.ts`.
