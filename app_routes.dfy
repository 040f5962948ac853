/** The route table of `app.routes.ts`, resolved first-match in
    declaration order, and the navigation that follows its redirects and
    the redirects its guards issue until a view is shown. */
module AppRoutes {
  import opened Base
  import opened Auth
  import opened Guards

  /** The guards a route can carry in `canActivate`. */
  datatype Guardia = AuthGuardia | NoAuthGuardia

  /** The routed components. */
  datatype Vista = LoginVista | ClienteVista | AdminVista

  /** What a route does: redirect (`redirectTo`) or show a component behind
      an optional guard, with the roles of its `data`. */
  datatype Destino =
    | RedirigirA(url: string)
    | Componente(vista: Vista, guardia: Option<Guardia>, roles: Option<seq<Rol>>)

  /** One route record; `path == "**"` is the wildcard. */
  datatype Ruta = Ruta(path: string, destino: Destino)

  const Comodin: string := "**"

  /** The `routes` array. The empty path has `pathMatch: 'full'`; the
      other routes are leaves without children, so they too match only a
      whole path. */
  const Rutas: seq<Ruta> := [
    Ruta("", RedirigirA("/cliente")),
    Ruta("login", Componente(LoginVista, Some(NoAuthGuardia), None)),
    Ruta("cliente", Componente(ClienteVista, Some(AuthGuardia), Some([Cliente]))),
    Ruta("admin", Componente(AdminVista, Some(AuthGuardia), Some([Admin]))),
    Ruta(Comodin, RedirigirA("/login"))
  ]

  /** Route `r` matches the path `camino` (the url without its leading
      `/`). */
  predicate Coincide(r: Ruta, camino: string)
  {
    r.path == Comodin || r.path == camino
  }

  /** The first route of `rutas`, from index `desde` on, that matches. */
  function PrimeraCoincidencia(rutas: seq<Ruta>, camino: string, desde: nat): (i: Option<nat>)
    requires desde <= |rutas|
    ensures i.Some? ==> desde <= i.value < |rutas| && Coincide(rutas[i.value], camino)
    ensures i.Some? ==> forall j :: desde <= j < i.value ==> !Coincide(rutas[j], camino)
    ensures i.None? ==> forall j :: desde <= j < |rutas| ==> !Coincide(rutas[j], camino)
    decreases |rutas| - desde
  {
    if desde == |rutas| then None
    else if Coincide(rutas[desde], camino) then Some(desde)
    else PrimeraCoincidencia(rutas, camino, desde + 1)
  }

  /** The index of the route the router picks for `camino`: always one,
      since the table ends with the wildcard. */
  function Resolver(camino: string): (i: nat)
    ensures i < |Rutas| && Coincide(Rutas[i], camino)
    ensures forall j :: 0 <= j < i ==> !Coincide(Rutas[j], camino)
  {
    var r := PrimeraCoincidencia(Rutas, camino, 0);
    assert Coincide(Rutas[4], camino);
    r.value
  }

  /** The path a url names: the url without its leading `/`. */
  function Camino(url: string): string
  {
    if |url| > 0 && url[0] == '/' then url[1..] else url
  }

  /** Each named path reaches its own route, and every other path falls
      through to the wildcard, which sends it to `/login`. */
  lemma {:induction false} ResolucionDeRutas(camino: string)
    ensures camino == "" ==> Rutas[Resolver(camino)].destino == RedirigirA("/cliente")
    ensures camino == "login" ==> Rutas[Resolver(camino)].destino == Componente(LoginVista, Some(NoAuthGuardia), None)
    ensures camino == "cliente" ==> Rutas[Resolver(camino)].destino == Componente(ClienteVista, Some(AuthGuardia), Some([Cliente]))
    ensures camino == "admin" ==> Rutas[Resolver(camino)].destino == Componente(AdminVista, Some(AuthGuardia), Some([Admin]))
    ensures Resolver(camino) == |Rutas| - 1 <==> camino !in {"", "login", "cliente", "admin"}
    ensures Resolver(camino) == |Rutas| - 1 ==> Rutas[Resolver(camino)].destino == RedirigirA("/login")
  {
    var i := Resolver(camino);
    if camino == "" {
      assert Coincide(Rutas[0], camino);
    } else if camino == "login" {
      assert Coincide(Rutas[1], camino);
    } else if camino == "cliente" {
      assert Coincide(Rutas[2], camino);
    } else if camino == "admin" {
      assert Coincide(Rutas[3], camino);
    } else {
      assert forall j :: 0 <= j < 4 ==> !Coincide(Rutas[j], camino);
    }
  }

  /** The view `authGuard` sends a user without the required role to has
      no route of its own: it is caught by the wildcard. */
  lemma AccesoDenegadoSinRuta()
    ensures Resolver(Camino("/acceso-denegado")) == |Rutas| - 1
    ensures Rutas[Resolver(Camino("/acceso-denegado"))].destino == RedirigirA("/login")
  {
    ResolucionDeRutas("acceso-denegado");
  }

  /** Run a route's guard. */
  function EvaluarGuardia(g: Option<Guardia>, usuario: Option<Usuario>, roles: Option<seq<Rol>>, url: string): Veredicto
  {
    match g
    case None => Veredicto(true, None)
    case Some(AuthGuardia) => AuthGuard(usuario, roles, url)
    case Some(NoAuthGuardia) => NoAuthGuard(usuario)
  }

  /** Where a navigation is shown: the view and the navigation that
      reached it (its url and `returnUrl`). */
  datatype Llegada = Llegada(vista: Vista, nav: Navegacion)

  /** Follow a navigation for the user snapshot `usuario`: a redirect
      route restarts it at its absolute target, whose url carries no query
      parameters; a guard that refuses restarts it at the guard's own
      navigation. At most `pasos` routes are tried; `None` means the bound
      ran out. Where it arrives, the route shows that view and its guard
      admits the navigation. */
  function Navegar(usuario: Option<Usuario>, nav: Navegacion, pasos: nat): (r: Option<Llegada>)
    ensures r.Some? ==>
              var d := Rutas[Resolver(Camino(r.value.nav.ruta))].destino;
              && d.Componente? && d.vista == r.value.vista
              && EvaluarGuardia(d.guardia, usuario, d.roles, r.value.nav.ruta).permite
    decreases pasos
  {
    if pasos == 0 then None
    else
      match Rutas[Resolver(Camino(nav.ruta))].destino
      case RedirigirA(destino) => Navegar(usuario, Navegacion(destino, None), pasos - 1)
      case Componente(vista, guardia, roles) =>
        var v := EvaluarGuardia(guardia, usuario, roles, nav.ruta);
        if v.permite then Some(Llegada(vista, nav))
        else if v.navegacion.Some? then Navegar(usuario, v.navegacion.value, pasos - 1)
        else None
  }

  /** The bound on the routes one navigation needs: a redirect, a refused
      guard, the wildcard and a second refused guard before a view. */
  const MaxPasos: nat := 5

  /** The view a role's home url shows. */
  function VistaDeInicio(rol: Rol): Vista
  {
    if rol == Admin then AdminVista else ClienteVista
  }

  /** A user who opens the view of their own role is let in at once. */
  lemma NavegarAVistaPropia(usuario: Option<Usuario>, url: string, returnUrl: Option<string>, pasos: nat)
    requires usuario.Some? && Camino(url) == Camino(Inicio(usuario.value.rol))
    requires pasos >= 1
    ensures Navegar(usuario, Navegacion(url, returnUrl), pasos)
            == Some(Llegada(VistaDeInicio(usuario.value.rol), Navegacion(url, returnUrl)))
  {
    ResolucionDeRutas(Camino(url));
  }

  /** A visitor who opens a protected view is sent to the login view,
      which remembers the requested url in `returnUrl`. */
  lemma NavegarSinSesion(url: string, returnUrl: Option<string>, pasos: nat)
    requires Camino(url) == "cliente" || Camino(url) == "admin"
    requires pasos >= 2
    ensures Navegar(None, Navegacion(url, returnUrl), pasos)
            == Some(Llegada(LoginVista, Navegacion("/login", Some(url))))
  {
    ResolucionDeRutas(Camino(url));
    ResolucionDeRutas("login");
    assert Camino("/login") == "login";
  }

  /** A navigation to the login path ends on the login view for a
      visitor and on the home view of the role for a signed-in user. */
  lemma NavegarALogin(usuario: Option<Usuario>, url: string, returnUrl: Option<string>, pasos: nat)
    requires Camino(url) == "login"
    requires pasos >= 2
    ensures usuario.None? ==>
              Navegar(usuario, Navegacion(url, returnUrl), pasos) == Some(Llegada(LoginVista, Navegacion(url, returnUrl)))
    ensures usuario.Some? ==>
              Navegar(usuario, Navegacion(url, returnUrl), pasos)
              == Some(Llegada(VistaDeInicio(usuario.value.rol), Navegacion(Inicio(usuario.value.rol), None)))
  {
    ResolucionDeRutas("login");
    if usuario.Some? {
      NavegarAVistaPropia(usuario, Inicio(usuario.value.rol), None, pasos - 1);
    }
  }

  /** `/acceso-denegado` is only a detour: the wildcard sends it on to
      `/login`, with no query parameters. */
  lemma NavegarAccesoDenegado(usuario: Option<Usuario>, returnUrl: Option<string>, pasos: nat)
    requires pasos >= 1
    ensures Navegar(usuario, Navegacion("/acceso-denegado", returnUrl), pasos)
            == Navegar(usuario, Navegacion("/login", None), pasos - 1)
  {
    AccesoDenegadoSinRuta();
  }

  /** A visitor who opens a path with no route of its own is sent by the
      wildcard to the login view; the redirect drops the query parameters
      of the url that was opened. */
  lemma NavegarSinRutaAlLogin(url: string, returnUrl: Option<string>, pasos: nat)
    requires Camino(url) !in {"", "login", "cliente", "admin"}
    requires pasos >= 3
    ensures Navegar(None, Navegacion(url, returnUrl), pasos) == Some(Llegada(LoginVista, Navegacion("/login", None)))
  {
    ResolucionDeRutas(Camino(url));
    assert Navegar(None, Navegacion(url, returnUrl), pasos) == Navegar(None, Navegacion("/login", None), pasos - 1);
    assert Camino("/login") == "login";
    NavegarALogin(None, "/login", None, pasos - 1);
  }

  /** A user who opens the view of the other role is refused by
      `authGuard`, caught by the wildcard on `/acceso-denegado`, sent on
      to `/login`, and sent by `noAuthGuard` to their own home view. */
  lemma NavegarAVistaAjena(usuario: Option<Usuario>, url: string, returnUrl: Option<string>, pasos: nat)
    requires usuario.Some?
    requires Camino(url) == (if usuario.value.rol == Admin then "cliente" else "admin")
    requires pasos >= 4
    ensures Navegar(usuario, Navegacion(url, returnUrl), pasos)
            == Some(Llegada(VistaDeInicio(usuario.value.rol), Navegacion(Inicio(usuario.value.rol), None)))
  {
    var rol := usuario.value.rol;
    ResolucionDeRutas(Camino(url));
    var vista, roles := if rol == Admin then ClienteVista else AdminVista, if rol == Admin then [Cliente] else [Admin];
    assert Rutas[Resolver(Camino(url))].destino == Componente(vista, Some(AuthGuardia), Some(roles));
    assert AuthGuard(usuario, Some(roles), url) == Veredicto(false, Some(Navegacion("/acceso-denegado", None)));
    assert Navegar(usuario, Navegacion(url, returnUrl), pasos)
           == Navegar(usuario, Navegacion("/acceso-denegado", None), pasos - 1);
    NavegarAccesoDenegado(usuario, None, pasos - 1);
    assert Camino("/login") == "login";
    NavegarALogin(usuario, "/login", None, pasos - 2);
  }

  /** Every navigation settles within `MaxPasos` routes, and where it ends
      depends only on the user: a visitor always lands on the login view,
      a `cliente` on the customer view and an `admin` on the admin view. */
  lemma {:induction false} NavegacionConverge(usuario: Option<Usuario>, nav: Navegacion)
    ensures Navegar(usuario, nav, MaxPasos).Some?
    ensures usuario.None? ==> Navegar(usuario, nav, MaxPasos).value.vista == LoginVista
    ensures usuario.Some? ==> Navegar(usuario, nav, MaxPasos).value.vista == VistaDeInicio(usuario.value.rol)
  {
    var camino := Camino(nav.ruta);
    ResolucionDeRutas(camino);
    var i := Resolver(camino);
    if i == 0 {
      var siguiente := Navegacion("/cliente", None);
      assert Navegar(usuario, nav, MaxPasos) == Navegar(usuario, siguiente, MaxPasos - 1);
      assert Camino("/cliente") == "cliente";
      LlegadaA(usuario, siguiente, MaxPasos - 1);
    } else if i == 4 {
      var siguiente := Navegacion("/login", None);
      assert Navegar(usuario, nav, MaxPasos) == Navegar(usuario, siguiente, MaxPasos - 1);
      assert Camino("/login") == "login";
      NavegarALogin(usuario, "/login", None, MaxPasos - 1);
    } else {
      LlegadaA(usuario, nav, MaxPasos);
    }
  }

  /** A navigation whose path names a route with a component settles
      within four routes, on the view the user's session allows. */
  lemma LlegadaA(usuario: Option<Usuario>, nav: Navegacion, pasos: nat)
    requires Camino(nav.ruta) in {"login", "cliente", "admin"}
    requires pasos >= 4
    ensures Navegar(usuario, nav, pasos).Some?
    ensures usuario.None? ==> Navegar(usuario, nav, pasos).value.vista == LoginVista
    ensures usuario.Some? ==> Navegar(usuario, nav, pasos).value.vista == VistaDeInicio(usuario.value.rol)
  {
    var camino := Camino(nav.ruta);
    if camino == "login" {
      NavegarALogin(usuario, nav.ruta, nav.returnUrl, pasos);
    } else if usuario.None? {
      NavegarSinSesion(nav.ruta, nav.returnUrl, pasos);
    } else if camino == Camino(Inicio(usuario.value.rol)) {
      NavegarAVistaPropia(usuario, nav.ruta, nav.returnUrl, pasos);
    } else {
      NavegarAVistaAjena(usuario, nav.ruta, nav.returnUrl, pasos);
    }
  }
}
