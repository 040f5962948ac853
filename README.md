# PlataformaRestaurante: session, guards, routes, login and cart

A Dafny model of the client of a restaurant platform written with Angular
and Firebase. The model covers five parts of the client:

- `AuthService`: the user profile stored in `usuarios/{uid}`, how sign-up and
  Google sign-in build a new profile, how an account is promoted to `admin`,
  the table that turns Firebase error codes into Spanish messages, and the
  two values the service publishes (`usuario` and `cargando`).
- `authGuard` and `noAuthGuard`: the two guards, as total decisions over the
  current user snapshot.
- The route table: it is resolved first-match in declaration order, and the
  model follows the redirects that routes and guards make until a view is
  shown.
- `LoginComponent`: form validation, the three sign-in and sign-up handlers,
  the admin allow-list (matched without regard to case), and the redirect
  made once the session check finishes.
- `ClienteComponent`: the cart, its total, checkout and sign-out.

Each Firebase call (`createUserWithEmailAndPassword`,
`signInWithEmailAndPassword`, `signInWithPopup`, `signOut`, `getDoc`,
`setDoc`) is replaced by a parameter that carries its outcome:
`Result<T, Falla>` for a call that can throw, and `Lectura` for a profile
read (document, no document, or failed read). A call to `router.navigate`
is returned as a `Navegacion(ruta, returnUrl)` value. A thrown error is
returned as an error value, and `finally` blocks are run on every path.
The BehaviorSubjects become the fields `usuario` and `cargando` of the
`AuthService` class. The admin allow-list `environment.adminEmails` is a
parameter.

Files:

- `base.dfy`: `Option`, `Result`, `Navegacion`, and JavaScript's `||` on
  optional strings.
- `texto.dfy`: `split(' ')`, `join(' ')` and `toLowerCase()`.
- `auth_service.dfy`: the `Auth` module.
- `auth_guard.dfy`: the `Guards` module.
- `app_routes.dfy`: the `AppRoutes` module.
- `login.dfy`: the `Login` module.
- `cliente.dfy`: the `Cliente` module.

Properties proved:

- Round trips: splitting a display name and joining it back gives the name
  back, and splitting a join of space-free words gives back the words.
- The error-code table: it gives a message for every code. A code it does not
  list gets the generic message, and no two different codes get that same
  message. No listed message looks like a generic one.
- Google sign-in never changes the role of a profile it could read. A
  profile it creates is always a `cliente`. A failed profile read counts as
  a missing profile, so the sign-in then writes a new `cliente` profile over
  whatever was stored, and a stored `admin` is demoted.
- The admin allow-list ignores case, in both directions.
- The two guards never both admit a user. The login view's redirect agrees
  with `noAuthGuard`.
- Every path resolves to a route. The guard's `/acceso-denegado` has no
  route of its own and falls through to the wildcard. Every navigation
  settles within five routes: a visitor ends on the login view, and a
  `cliente` or an `admin` ends on the view of their own role.
- The cart keeps distinct product ids and positive quantities. Each cart
  operation changes the total by exactly the subtotal it adds or removes.
  Checkout puts a `pendiente` order, carrying the cart's lines and total, in
  front of the order list.

## Model

| member | source | states |
|---|---|---|
| Base.Or | src/app/services/auth.service.ts:111-115 | JavaScript's logical or on an optional string: a non-empty string is kept; a missing or empty one gives `b` |
| Texto.IndexOf | src/app/services/auth.service.ts:155 | the position of the first occurrence of the character: it is there and not before |
| Texto.Split | src/app/services/auth.service.ts:155-156 | `split(' ')` yields at least one piece, no piece holds a space, a string without a space is its own single piece, a string with one yields two or more |
| Texto.Join | src/app/services/auth.service.ts:156 | `join(' ')`: no pieces give `''`, one piece is itself, otherwise the pieces with one space between each two |
| Texto.JoinSplit | src/app/services/auth.service.ts:155-156 | `split(' ')` followed by `join(' ')` gives back every string |
| Texto.SplitJoin | src/app/services/auth.service.ts:155-156 | `join(' ')` of at least one space-free piece followed by `split(' ')` gives back the pieces |
| Texto.PrimeraPalabraYResto | src/app/services/auth.service.ts:155-156 | for a name with a space, the first piece plus a space plus the join of the rest is the name |
| Texto.JoinDelante | src/app/services/auth.service.ts:156 | `join(' ')` puts exactly one space between the first piece and the join of the others |
| Texto.IndexOfTrasPalabra | src/app/services/auth.service.ts:155 | in a space-free word, a space and a rest, the first space is the one right after the word |
| Texto.SplitTrasPalabra | src/app/services/auth.service.ts:155 | splitting a space-free word, a space and a rest gives the word and then the pieces of the rest |
| Texto.ToLowerChar | src/app/components/login/login.ts:74 | upper-case ASCII letters map to their lower-case letter; every other character is kept |
| Texto.ToLowerCase | src/app/components/login/login.ts:74 | `toLowerCase()` keeps the length and lower-cases each character |
| Texto.ToLowerCaseIgual | src/app/components/login/login.ts:74-79 | two strings lower-case to the same string exactly when they differ only in case |
| Auth.ObtenerDatosUsuario | src/app/services/auth.service.ts:87-100 | the profile when the document exists; no profile both when it is missing and when the read fails |
| Auth.PromoverAdmin | src/app/services/auth.service.ts:39-40 | the promoted profile has role `admin` and otherwise equals the stored one |
| Auth.PerfilRegistro | src/app/services/auth.service.ts:109-116 | the registered profile has the credential's uid, its email or else the typed one, the requested role, and each optional field the given value or `''` |
| Auth.Nombre | src/app/services/auth.service.ts:155 | the first piece of `displayName.split(' ')`, or `''` without a display name |
| Auth.Apellido | src/app/services/auth.service.ts:156 | the pieces of `displayName.split(' ')` after the first, joined with spaces, or `''` without a display name |
| Auth.PerfilGoogle | src/app/services/auth.service.ts:152-158 | a new Google profile is a `cliente` with no phone; `nombre` is the first word of the display name; `nombre`, a space and `apellido` rebuild a display name that has a space |
| Auth.TraducirErrorAuth | src/app/services/auth.service.ts:202-215 | each of the nine listed codes gets its message; any other code gets `'Error de autenticación: ' + codigo`; the message is never empty |
| Auth.TablaSinPrefijoGenerico | src/app/services/auth.service.ts:203-214 | no message of the table starts with the generic prefix |
| Auth.MensajeGenericoInyectivo | src/app/services/auth.service.ts:214 | an unlisted code's message is different from the message of every other code |
| Auth.SesionGoogle | src/app/services/auth.service.ts:142-170 | popup failure is thrown with the Google prefix; an existing profile is returned; otherwise a new `cliente` profile is returned, or the write's failure is thrown |
| Auth.SesionGoogleConservaRol | src/app/services/auth.service.ts:148-166 | a successful Google sign-in returns the existing profile unchanged, and gives `admin` only when the stored profile already was one |
| Auth.SesionGoogleLecturaFallida | src/app/services/auth.service.ts:96-99 | a failed profile read gives the same result as a missing profile: a new `cliente` profile with no phone, which replaces the stored one |
| Auth.EsCliente | src/app/components/login/login.ts:110 | there is a user and its role is `cliente` (also `cliente.ts:49`) |
| Auth.AuthService.constructor | src/app/services/auth.service.ts:20-24 | no user, and loading |
| Auth.AuthService.AlCambiarEstadoSesion | src/app/services/auth.service.ts:71-82 | the auth-state callback publishes the read profile, or no user, and ends loading |
| Auth.AuthService.AsignarRolAdmin | src/app/services/auth.service.ts:33-51 | with a found profile and a successful write, the promoted profile is published and returned; otherwise `null` is returned and nothing is published |
| Auth.AuthService.RegistrarConCorreo | src/app/services/auth.service.ts:105-123 | on success the registered profile is published; a failed creation or write is thrown as its translated message and publishes nothing |
| Auth.AuthService.IniciarSesionConCorreo | src/app/services/auth.service.ts:128-136 | on success the stored profile (or none) is published; a failed sign-in is thrown as its translated message |
| Auth.AuthService.IniciarSesionConGoogle | src/app/services/auth.service.ts:142-170 | returns what `SesionGoogle` gives, publishes the returned profile, and publishes nothing on failure |
| Auth.AuthService.CerrarSesion | src/app/services/auth.service.ts:175-183 | a successful sign-out publishes no user; a failed one is rethrown unchanged and publishes nothing |
| Auth.AuthService.ObtenerRolActual | src/app/services/auth.service.ts:195-197 | the role exactly when there is a user |
| Guards.ExigeRol | src/app/guards/auth.guard.ts:16 | the route's roles are present and not empty |
| Guards.AuthGuard | src/app/guards/auth.guard.ts:7-31 | admits exactly a user whose role is listed, or any user when no roles are listed; a refusal always navigates: a visitor to `/login` with `returnUrl`, a user to `/acceso-denegado` |
| Guards.Inicio | src/app/guards/auth.guard.ts:43-47 | the home url is `/admin` for an admin and `/cliente` for a cliente |
| Guards.NoAuthGuard | src/app/guards/auth.guard.ts:33-50 | admits exactly visitors; a signed-in user is sent to the home url of the role |
| Guards.GuardasComplementarias | src/app/guards/auth.guard.ts:7-50 | `noAuthGuard` admits exactly the visitors `authGuard` sends to `/login`; no user passes both |
| AppRoutes.Rutas | src/app/app.routes.ts:7-13 | the five routes in declaration order: `''` redirects to `/cliente`, `login` behind `noAuthGuard`, `cliente` and `admin` behind `authGuard` with their role, and the wildcard redirecting to `/login` |
| AppRoutes.Coincide | src/app/app.routes.ts:7-13 | a route matches its own whole path, and the wildcard matches every path |
| AppRoutes.Camino | src/app/app.routes.ts:7-13 | the path a url names: the url without its leading `/` |
| AppRoutes.EvaluarGuardia | src/app/app.routes.ts:9-11 | a route without a guard admits; otherwise its `canActivate` guard decides |
| AppRoutes.Navegar | src/app/app.routes.ts:7-13 | following redirects and guard navigations: where it arrives, that route shows the view and its guard admits the navigation; redirects carry no query parameters |
| AppRoutes.PrimeraCoincidencia | src/app/app.routes.ts:7-13 | the index found matches, and no earlier route does; none when no route matches |
| AppRoutes.Resolver | src/app/app.routes.ts:7-13 | every path resolves to the first route that matches it |
| AppRoutes.ResolucionDeRutas | src/app/app.routes.ts:8-12 | `''`, `login`, `cliente` and `admin` reach their own routes; exactly the other paths reach the wildcard, which redirects to `/login` |
| AppRoutes.AccesoDenegadoSinRuta | src/app/guards/auth.guard.ts:21 | `/acceso-denegado` has no route; the wildcard catches it and redirects to `/login` |
| AppRoutes.NavegarAVistaPropia | src/app/app.routes.ts:10-11 | a user who opens the view of their own role is shown it at once |
| AppRoutes.NavegarSinSesion | src/app/guards/auth.guard.ts:26-29 | a visitor who opens `/cliente` or `/admin` ends on the login view, with the requested url as `returnUrl` |
| AppRoutes.NavegarALogin | src/app/app.routes.ts:9 | the login path shows the login view to a visitor, and sends a user to the home view of their role |
| AppRoutes.NavegarAccesoDenegado | src/app/app.routes.ts:12 | navigating to `/acceso-denegado` is the same as navigating to `/login` with no query parameters |
| AppRoutes.NavegarSinRutaAlLogin | src/app/app.routes.ts:12 | a visitor who opens a path without a route of its own ends on the login view, and the redirect drops that url's query parameters |
| AppRoutes.NavegarAVistaAjena | src/app/guards/auth.guard.ts:19-22 | a user who opens the other role's view ends on their own home view |
| AppRoutes.NavegacionConverge | src/app/app.routes.ts:7-13 | every navigation settles within five routes; a visitor ends on the login view and a user on the view of their role |
| AppRoutes.LlegadaA | src/app/app.routes.ts:9-11 | a path naming a component route settles within four routes on the view the session allows |
| Login.CredencialesValidas | src/app/components/login/login.ts:98 | an email is typed and the password has at least six characters (also `login.ts:127`) |
| Login.EnMinusculas | src/app/components/login/login.ts:77 | the allow-list lower-cased, entry by entry |
| Login.EsEmailAdmin | src/app/components/login/login.ts:77-79 | the lower-cased email is among the lower-cased allow-list |
| Login.EsEmailAdminSinMayusculas | src/app/components/login/login.ts:74-79 | an email is on the allow-list exactly when a listed address equals it up to case |
| Login.EsEmailAdminInsensible | src/app/components/login/login.ts:74-79 | two emails that differ only in case are both on the allow-list or both off it |
| Login.RedireccionInicial | src/app/components/login/login.ts:43-59 | once loading ends, an admin is sent to `/admin` and a cliente to `/cliente`; a visitor stays |
| Login.RedireccionInicialComoNoAuthGuard | src/app/components/login/login.ts:49-57 | the login view's own redirect is the navigation `noAuthGuard` makes |
| Login.LoginComponent.constructor | src/app/components/login/login.ts:19-33 | empty forms, the login form shown, not loading, no message |
| Login.LoginComponent.CambiarVista | src/app/components/login/login.ts:63-66 | shows the chosen form and clears the message |
| Login.LoginComponent.LoginClienteCorreo | src/app/components/login/login.ts:96-123 | invalid input only sets the message; a failed sign-in shows its translated message; a `cliente` goes to `/cliente`; anyone else is signed out with `'Este usuario no es un cliente'`; loading ends on every path past validation |
| Login.LoginComponent.RegistroClienteCorreo | src/app/components/login/login.ts:125-150 | invalid input only sets the message; a successful sign-up publishes a `cliente` profile with the typed name and goes to `/cliente`; a failure shows its translated message |
| Login.LoginComponent.IniciarSesionGoogle | src/app/components/login/login.ts:68-94 | a failed sign-in shows its message; an allow-listed email goes to `/admin` and is promoted exactly when not yet admin; every other user goes to `/cliente`; the published profile has the signed-in user's uid |
| Cliente.Subtotal | src/app/components/cliente/cliente.ts:147 | what one line adds: price times quantity |
| Cliente.Total | src/app/components/cliente/cliente.ts:147 | the `reduce`: a left fold of the subtotals from 0 |
| Cliente.TotalConcatenacion | src/app/components/cliente/cliente.ts:146-148 | the total of two carts put together is the sum of their totals |
| Cliente.TotalNoNegativo | src/app/components/cliente/cliente.ts:146-148 | with no negative price the total is not negative |
| Cliente.TotalReemplazo | src/app/components/cliente/cliente.ts:135-136 | replacing a line changes the total by the difference of the two subtotals |
| Cliente.TotalAgregar | src/app/components/cliente/cliente.ts:138 | appending a line adds its subtotal to the total |
| Cliente.TotalAlrededor | src/app/components/cliente/cliente.ts:146-148 | a cart split around one line totals the two sides plus that line's subtotal |
| Cliente.TotalSinLinea | src/app/components/cliente/cliente.ts:142-144 | removing a line takes its subtotal off the total |
| Cliente.BuscarDesde | src/app/components/cliente/cliente.ts:133 | the line found has the id and no earlier line has it; none when no line has it |
| Cliente.Buscar | src/app/components/cliente/cliente.ts:133 | `find` by id: the first line with the id, and none exactly when no line has it |
| Cliente.BuscarUnico | src/app/components/cliente/cliente.ts:132-139 | in a cart with distinct ids, the line found is the only one with that id |
| Cliente.AgregarLineaConserva | src/app/components/cliente/cliente.ts:137-138 | appending a product the cart does not hold, with one unit, keeps ids distinct and quantities positive |
| Cliente.IncrementarConserva | src/app/components/cliente/cliente.ts:135-136 | one more unit of an existing line keeps ids distinct and quantities positive |
| Cliente.QuitarConserva | src/app/components/cliente/cliente.ts:142-144 | removing a line keeps ids distinct and quantities positive |
| Cliente.InicioSplice | src/app/components/cliente/cliente.ts:142-144 | `splice`'s start: a non-negative index clamped to the length, a negative one counted from the end and clamped at 0 |
| Cliente.ClienteComponent.constructor | src/app/components/cliente/cliente.ts:36-44 | no user, and no products, cart or orders |
| Cliente.ClienteComponent.NgOnInit | src/app/components/cliente/cliente.ts:46-56 | takes the current user; anyone but a `cliente` is sent to `/login` with nothing loaded; a `cliente` gets the sample products and orders |
| Cliente.ClienteComponent.CalcularTotal | src/app/components/cliente/cliente.ts:146-148 | the empty cart totals 0; with no negative price the total is not negative |
| Cliente.ClienteComponent.AgregarAlCarrito | src/app/components/cliente/cliente.ts:132-139 | a product already in the cart gets one more unit and every other line is unchanged; a new product is appended with one unit; ids stay distinct, and the total grows by the line's price |
| Cliente.ClienteComponent.EliminarDelCarrito | src/app/components/cliente/cliente.ts:142-144 | removes exactly the line at `splice`'s start, or nothing past the end, and the total drops by its subtotal |
| Cliente.ClienteComponent.ConfirmarPedido | src/app/components/cliente/cliente.ts:150-170 | an empty cart changes nothing; otherwise a `pendiente` order with the cart's lines and total goes first and the cart is emptied |
| Cliente.ClienteComponent.CerrarSesion | src/app/components/cliente/cliente.ts:180-183 | a successful sign-out publishes no user and goes to `/login`; a failed one rejects with the same error, does not navigate and publishes nothing |

## Left out

- Firebase and Firestore themselves (network, persistence, `setPersistence`): each call's outcome is a parameter, as described above.
- Timing and concurrency of the RxJS subjects and of `async` code. The model does not cover callbacks that interleave, an auth-state change that arrives mid-handler, or a guard that reads the user before loading ends and sees no user.
- Login.RedireccionInicial: the `filter(cargando === false), take(1)` subscription is modelled as one pure function, applied to the user snapshot at the moment loading ends.
- `console.error`, `alert` and `prompt`: these are output and input to the browser. `agregarComentario` only prompts and alerts, so it is not modelled.
- Cliente.ClienteComponent.ConfirmarPedido: the order id `'PED' + Date.now()` is the parameter `id`, and the `fecha` field of orders is dropped, because the clock is not modelled.
- Auth.SesionGoogle: `error?.message || error` falls back to the error object's string form when the message is empty. The model always uses the message.
- Auth.TraducirErrorAuth: the lookup `errores[codigo]` on a plain object also finds inherited keys such as `toString`. The model only knows the nine listed codes.
- Texto.ToLowerCase: only ASCII letters are lower-cased; Unicode case mapping is not modelled.
- Texto.ToLowerChar: only `A`–`Z` are lowered. JavaScript also lowers other letters such as `'É'`, which this function keeps.
- Login.CredencialesValidas: `contrasena.length` counts UTF-16 code units. The model counts characters; the two agree except outside the Basic Multilingual Plane. This also holds for Login.LoginComponent.LoginClienteCorreo and Login.LoginComponent.RegistroClienteCorreo, which use it.
- Cliente.Producto: `precio` is a whole number here, not a floating-point `number`.
- Cliente.InicioSplice: a non-integer index, which JavaScript truncates, is not modelled.
- Auth.AuthService.RegistrarConCorreo: the password is not a parameter, because only the outcome of `createUserWithEmailAndPassword` matters.
- Auth.AuthService.AsignarRolAdmin: the `uid` argument is folded into the outcome of its profile read.
- `mostrarPasswordCliente` and `mostrarPasswordRegistro`: UI toggles with no logic.
- The template bindings, which set the form fields directly.
- AppRoutes.Navegar: route matching is whole-path only; these routes have no children or parameters. Query parameters other than `returnUrl` are not modelled. An absolute `redirectTo` is taken to replace the url, query parameters included, with its own target. A guard is handed the path of the url, not its query string, so the `returnUrl` that `authGuard` records is that bare path. The number of routes tried is bounded by a step count.
- AppRoutes.NavegarSinSesion: the `returnUrl` it states is the path of the opened url, without that url's own query string. The source passes `state.url`, the serialized url, which keeps it: `/cliente?returnUrl=/admin` would be recorded with its query.
- AppRoutes.NavegacionConverge: stored profiles are taken to match the `Usuario` interface, so `rol` is `cliente` or `admin` (Auth.Usuario, Auth.Rol). The source reads them with an unchecked `as Usuario` cast. With any other or a missing `rol`, `authGuard` refuses `/cliente`, the wildcard sends `/acceso-denegado` to `/login`, and `noAuthGuard` sends the user back to `/cliente`, so the source's navigation never settles.
- Login.LoginComponent.IniciarSesionGoogle: the promotion's profile read is of `usuarios/{uid}` for the signed-in user. The model requires a profile it finds to carry that uid; it does not model the document key separately from the stored `uid` field.
- The sample orders of `cargarPedidos` carry totals with empty item lists. They are loaded as they are, and no relation between their totals and their items is claimed.
- `pedido.service.ts`, `producto.service.ts`, the admin components, the navbar and `app.config.ts` are not part of this model.
