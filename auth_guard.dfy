/** `authGuard` and `noAuthGuard`: total decisions over the current user
    snapshot, the roles a route declares and the requested url. The
    guard's `router.navigate` call is returned as part of the verdict. */
module Guards {
  import opened Base
  import opened Auth

  /** What a guard returns (`true` admits the navigation) and the
      `router.navigate` call it makes, if any. */
  datatype Veredicto = Veredicto(permite: bool, navegacion: Option<Navegacion>)

  /** True when `roles` (the route's `data['roles']`) is present and not
      empty: only then does `authGuard` check the user's role. */
  predicate ExigeRol(roles: Option<seq<Rol>>)
  {
    roles.Some? && |roles.value| > 0
  }

  /** `authGuard`: a signed-in user passes unless the route names roles and
      the user's role is not among them; without a user the guard sends the
      navigation to `/login` and remembers the requested url. */
  function AuthGuard(usuario: Option<Usuario>, roles: Option<seq<Rol>>, url: string): (v: Veredicto)
    ensures !v.permite <==> v.navegacion.Some?
    ensures v.permite <==> usuario.Some? && (!ExigeRol(roles) || usuario.value.rol in roles.value)
    ensures usuario.None? ==> v.navegacion == Some(Navegacion("/login", Some(url)))
    ensures usuario.Some? && !v.permite ==> v.navegacion == Some(Navegacion("/acceso-denegado", None))
  {
    if usuario.Some? then
      if roles.Some? && |roles.value| > 0 then
        if usuario.value.rol in roles.value then Veredicto(true, None)
        else Veredicto(false, Some(Navegacion("/acceso-denegado", None)))
      else Veredicto(true, None)
    else Veredicto(false, Some(Navegacion("/login", Some(url))))
  }

  /** The home view of a role: where a signed-in user is sent. */
  function Inicio(rol: Rol): (ruta: string)
    ensures rol == Admin ==> ruta == "/admin"
    ensures rol == Cliente ==> ruta == "/cliente"
  {
    if rol == Admin then "/admin" else "/cliente"
  }

  /** `noAuthGuard`: only a visitor without a session passes; a signed-in
      user is sent to the home view of their role. */
  function NoAuthGuard(usuario: Option<Usuario>): (v: Veredicto)
    ensures !v.permite <==> v.navegacion.Some?
    ensures v.permite <==> usuario.None?
    ensures usuario.Some? ==> v.navegacion == Some(Navegacion(Inicio(usuario.value.rol), None))
  {
    if usuario.None? then Veredicto(true, None)
    else if usuario.value.rol == Admin then Veredicto(false, Some(Navegacion("/admin", None)))
    else Veredicto(false, Some(Navegacion("/cliente", None)))
  }

  /** The two guards never both admit the same user: `noAuthGuard` admits
      exactly the visitors `authGuard` turns away to `/login`. */
  lemma GuardasComplementarias(usuario: Option<Usuario>, roles: Option<seq<Rol>>, url: string)
    ensures NoAuthGuard(usuario).permite <==> AuthGuard(usuario, roles, url).navegacion == Some(Navegacion("/login", Some(url)))
    ensures !(NoAuthGuard(usuario).permite && AuthGuard(usuario, roles, url).permite)
  {
  }
}
