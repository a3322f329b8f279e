# Cardápio Colorado: session gate and menu grouping

This project models the two pieces of logic in the digital menu ("cardápio") front-end.

- **The password gate.** The `useAuth` hook keeps a two-minute session in two `localStorage` keys: `cardapio_authenticated` and `cardapio_auth_timestamp`. On mount it checks them against the clock. `login` writes both keys and `logout` erases both. The `Login` form's submit handler decides which error to show, and writes the session only when the server accepts the password.
- **The menu page.** `App` groups the fetched products under their categories, keeping fetch order. It shows a loading screen until both fetches finish, then renders one section per category. It also keeps the product drawer's selection state.

Modules:

- `Wrappers`: `Option`.
- `BrowserStorage`: `localStorage` as a class whose `items: map<string, string>` field is reassigned by `SetItem` and `RemoveItem`.
- `NumberText`: how a time stamp is written as decimal text (`toString`) and read back (`parseInt`). The parse is partial. `None` plays the part of NaN.
- `Session`: the `useAuth` hook. `Check` is the pure decision and `AuthHook` the stateful hook. The lemmas cover the gate's properties.
- `Menu`: `App`'s derivation `productsByCategory`, the loading join, the rendered sections and the drawer.
- `LoginScreen`: the `Login` form. The authentication reply is the parameter `AuthReply`: either a decoded `{success, message}` body or an exception.

The clock (`Date.now()`) is the parameter `now`, and an authentication reply is a parameter too. Both components use one shared `LocalStorage` object, as the page shares the browser's single store.

Two facts about the code shape the model:

- The page renders every category, including one without products, for which it shows "Nenhum produto nesta categoria." (`src/App.tsx:72-113`, `Menu.EveryCategoryRendered`).
- A stored session is examined only when the status is exactly `"true"` and the time stamp is a non-empty string (`src/hooks/useAuth.ts:11`). Such a session is erased when its time stamp is too old, and also when the time stamp does not parse: a failed `parseInt` gives NaN, and `now - NaN < 120000` is false. In every other case the check leaves the store as it is.

Several lemmas below (`Session.CheckAuthenticatedIff`, `Menu.ContentOnlyWhenLoaded`, `LoginScreen.RejectionMessageCases`, `LoginScreen.ThrowShowsConnectionError`, `LoginScreen.SubmitGuard`) restate a definition in the form the code promises it. They hold by unfolding the definition. The proofs proper are `Session.LoginThenCheck`, `NumberText.ParseIntToText` and the `Menu.ProductsOf*` lemmas.

## Model

| member | source | states |
|---|---|---|
| `Session.AuthHook.constructor` | src/hooks/useAuth.ts:4-5 | The hook starts not authenticated, with the check pending. |
| `Session.AuthHook.CheckOnMount` | src/hooks/useAuth.ts:7-26 | The store afterwards is what `Check` decides from the old store and `now`. The flag is set to true on a live session and is never set to false. `isCheckingAuth` is false on every path. |
| `Session.AuthHook.Login` | src/hooks/useAuth.ts:28-33 | Both keys are written (`"true"` and the decimal text of `now`), and the hook becomes authenticated. |
| `Session.AuthHook.Logout` | src/hooks/useAuth.ts:35-39 | Both keys are removed, nothing else changes, and the hook becomes unauthenticated. |
| `Session.CheckAuthenticatedIff` | src/hooks/useAuth.ts:11-18 | The check succeeds if and only if four things hold: the status is exactly `"true"`, the time stamp is present and non-empty, it parses, and `now - loginTime < 120000`. |
| `Session.CheckBoundaryStrict` | src/hooks/useAuth.ts:14-17 | For a session written at `t`, a check at `t + 120000` fails and a check at `t + 119999` succeeds. |
| `Session.CheckClearsStaleSession` | src/hooks/useAuth.ts:11-23 | Take a stored session whose time stamp is unparseable or at least 120000 ms old. The check fails and removes exactly the two keys. |
| `Session.CheckIgnoresAbsentSession` | src/hooks/useAuth.ts:11-24 | Take a store where the status is not `"true"`, or the time stamp is absent or empty. The check fails and leaves the store unchanged. |
| `Session.CheckOnlyErases` | src/hooks/useAuth.ts:7-26 | The check writes nothing, so it never refreshes the time stamp. It removes both keys or neither, and any other key is left alone. |
| `Session.CheckIdempotent` | src/hooks/useAuth.ts:7-26 | Checking again at the same time gives the same verdict and the same store. |
| `Session.FailedCheckIsFinal` | src/hooks/useAuth.ts:17-23 | After a check has failed, no check at any time, earlier or later, succeeds unless there is a new login. |
| `Session.CheckMonotoneInTime` | src/hooks/useAuth.ts:17 | A session that is live at `now` was also live at every earlier time. |
| `Session.LoginThenCheck` | src/hooks/useAuth.ts:11-33 | After a login at `t`, a check at `now` succeeds and keeps the store exactly when `now - t < 120000`. Otherwise it removes both keys, leaving the pre-login store with its session keys erased. |
| `Session.LoginThenCheckAtOnce` | src/hooks/useAuth.ts:28-33 | A check made at the same time as the login succeeds. |
| `Session.LogoutThenCheck` | src/hooks/useAuth.ts:35-39 | After a logout, a check fails and leaves the store as the logout left it. |
| `Session.ScenarioTwoMinutes` | src/hooks/useAuth.ts:11-31 | Log in at 0. A check at 119999 ms succeeds. A check at 120001 ms fails and leaves neither key in the store. |
| `NumberText.ToText` | src/hooks/useAuth.ts:31 | The text written for a time stamp is never empty, so the truthiness test at line 11 accepts it. It starts with `-` exactly for negative times. |
| `NumberText.ParseIntToText` | src/hooks/useAuth.ts:12 | `parseInt` reads back exactly the number that line 31 wrote. |
| `NumberText.ParseIntRejects` | src/hooks/useAuth.ts:12 | The empty string, a bare sign, and any text with a non-digit after the sign parse to NaN. |
| `Menu.GroupByCategory` | src/App.tsx:23-29 | Each category id maps to the filter of the products by that id, and the map has no other keys. |
| `Menu.ProductsOfIsSubsequence` | src/App.tsx:26 | A group is a subsequence of the products, in fetch order. |
| `Menu.ProductsOfCounts` | src/App.tsx:26 | A group holds each product of its category exactly as often as it was fetched, and no other product. |
| `Menu.ProductsOfMembers` | src/App.tsx:26 | A product is in the group of `id` if and only if it was fetched and its `category_id` is `id`. |
| `Menu.ProductsOfUnique` | src/App.tsx:26 | Take any order-preserving selection of the products that holds only products of `id`, with the same multiset as the filter. That selection is the filter. |
| `Menu.GroupMembersMatch` | src/App.tsx:24-28 | Every product in a group was fetched and belongs to that group's category. |
| `Menu.GroupHoldsItsProducts` | src/App.tsx:24-28 | A fetched product whose category exists is in that category's group. |
| `Menu.OrphanInNoGroup` | src/App.tsx:24-28 | A product whose `category_id` matches no category is in no group. |
| `Menu.GroupsDisjoint` | src/App.tsx:26 | No product is in two different groups. |
| `Menu.ScenarioOrphanDropped` | src/App.tsx:23-29 | Categories [Bebidas (1)] with products [Chopp (1), Suco (2)] group to exactly {1: [Chopp]}. |
| `Menu.ContentOnlyWhenLoaded` | src/App.tsx:21-39 | The page renders content if and only if neither fetch is still loading. |
| `Menu.EveryCategoryRendered` | src/App.tsx:72-113 | There is one section per category, in fetch order. A section shows the notice exactly when its group is empty, and otherwise lists exactly that group. |
| `Menu.ProductDrawer.constructor` | src/App.tsx:36-37 | Nothing is selected and the drawer is closed. |
| `Menu.ProductDrawer.Choose` | src/App.tsx:89-92 | The product is selected and the drawer opened in one step. An open drawer always has a product. |
| `Menu.ProductDrawer.Close` | src/App.tsx:142 | Only the drawer closes, from any state. The selection is kept, and afterwards an open drawer always has a product. |
| `Menu.ProductDrawer.OpenChange` | src/App.tsx:121 | The drawer's own open/close callback sets only the open flag. |
| `LoginScreen.LoginForm.constructor` | src/components/Login.tsx:12-15 | The form starts with an empty password, the password hidden, not loading and no error. |
| `LoginScreen.LoginForm.SetSenha` | src/components/Login.tsx:78 | Only the password changes. |
| `LoginScreen.LoginForm.TogglePassword` | src/components/Login.tsx:85 | Only the show-password flag flips. |
| `LoginScreen.LoginForm.BeginSubmit` | src/components/Login.tsx:18-20 | Before the await, `loading` is true and the error is cleared. |
| `LoginScreen.LoginForm.FinishSubmit` | src/components/Login.tsx:22-38 | On acceptance both keys are written and `onLoginSuccess` is called, and the error is unchanged. On any other path the store is untouched, no callback is made, and the error is set. `loading` ends false on every path. |
| `LoginScreen.LoginForm.HandleSubmit` | src/components/Login.tsx:17-39 | The whole handler: the final error is `ErrorAfterSubmit(reply)`, the store is written only on acceptance, and `loading` ends false. |
| `LoginScreen.LoginForm.SubmitForm` | src/components/Login.tsx:107-109 | The handler runs if and only if the button is enabled. Otherwise nothing changes. |
| `LoginScreen.ErrorShownIffRejected` | src/components/Login.tsx:25-35 | After a submit an error is shown if and only if the password was not accepted. |
| `LoginScreen.RejectionMessageCases` | src/components/Login.tsx:31-32 | A non-empty server message is shown verbatim. An absent or empty one falls back to "Senha incorreta". |
| `LoginScreen.ThrowShowsConnectionError` | src/components/Login.tsx:34-35 | An exception shows "Erro na conexão com o servidor". The auth service's swallowed network failure shows the same text. |
| `LoginScreen.ScenarioWrongPassword` | src/components/Login.tsx:31-32 | A reply `{success: false, message: "Senha incorreta"}` keeps the gate closed and shows that message. |
| `LoginScreen.SubmitGuard` | src/components/Login.tsx:109 | The button is enabled if and only if the form is not loading and the password is non-empty, so it is disabled while a submit is in flight. |
| `LoginScreen.AcceptedSubmitOpensGate` | src/components/Login.tsx:25-30 | The session a successful submit stores passes the gate's check if and only if less than 120000 ms have passed. |

## Left out

- HTTP and SQL plumbing is not part of this model: the axios instance, the category, product, featured-item and auth fetchers, and the PHP endpoint. The auth service's habit of turning exceptions into `{success: false, message: "Erro na conexão com o servidor"}` is taken as given. The form model still handles a thrown call.
- The data-loading hooks are not part of this model. Their loading flags are inputs to `Menu.RenderPage`. How often React re-runs their effects is a lifecycle question that a sequential model cannot express.
- React scheduling is not modelled. State setters take effect at once. The mount effect is a method the caller runs once. The `await` in `handleSubmit` is the split between `BeginSubmit` and `FinishSubmit`.
- Exceptions raised by `localStorage.setItem` or by the `onLoginSuccess` callback are not modelled. In the code they would also land in the `catch` branch.
- `parseInt` is modelled only on whole strings: an optional sign followed by decimal digits. JavaScript also accepts a digit prefix ("12abc" gives 12), leading white space and a `0x` prefix. The model reads such strings as NaN. Every time stamp the code itself writes is parsed exactly (`NumberText.ParseIntToText`).
- These are integers, not floating point. `Date.now()` and the subtraction at `src/hooks/useAuth.ts:17` are exact here. `toString` switches to exponent notation from 1e21 on, which is not modelled.
- Rendering is left out: the JSX, styling, the carousel, the drawer widget, skeletons, animation, the product details shown in the drawer, and `scrollToCategory` (`scrollIntoView`). The category selector's one card per category is also left out.
- The `oculto` (hidden) flag that the products endpoint returns (`porra.php:17`) is not a field of `Menu.Product`. The page never filters on it, so hidden products are grouped and listed like any other.
- Price display is left out. Products carry `preco` as a `real`, and it affects nothing modelled.
