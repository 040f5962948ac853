/** `LoginComponent`: client-side validation of the password forms, the
    Google sign-in with its admin allow-list, and the `cargando` /
    `mensajeError` / `vistaActual` fields its handlers set. */
module Login {
  import opened Base
  import opened Texto
  import opened Auth
  import opened Guards

  /** The two forms the component can show. */
  datatype VistaLogin = LoginCliente | RegistroCliente

  /** The `loginModel` the template binds. */
  datatype LoginModel = LoginModel(email: string, contrasena: string)

  /** The `registerModel` the template binds. */
  datatype RegisterModel = RegisterModel(nombre: string, apellido: string, email: string, contrasena: string)

  const MensajeLoginInvalido: string := "Ingresa correo y contraseña válidos (mín. 6 caracteres)"
  const MensajeRegistroInvalido: string := "Ingresa un correo válido y una contraseña (mín. 6 caracteres)"
  const MensajeNoEsCliente: string := "Este usuario no es un cliente"
  const MensajeErrorLogin: string := "Error al iniciar sesión"
  const MensajeErrorRegistro: string := "Error al registrarse"
  const MensajeErrorGoogle: string := "Error al iniciar sesión con Google"

  /** The check both password handlers make before any call: an email is
      typed and the password has at least six characters. */
  predicate CredencialesValidas(email: string, contrasena: string)
  {
    email != "" && |contrasena| >= 6
  }

  /** `adminEmails.map((e) => e.toLowerCase())`. */
  function EnMinusculas(emails: seq<string>): (r: seq<string>)
    ensures |r| == |emails|
    ensures forall i :: 0 <= i < |emails| ==> r[i] == ToLowerCase(emails[i])
  {
    seq(|emails|, i requires 0 <= i < |emails| => ToLowerCase(emails[i]))
  }

  /** `admins.includes(email.toLowerCase())`. */
  predicate EsEmailAdmin(adminEmails: seq<string>, email: string)
  {
    ToLowerCase(email) in EnMinusculas(adminEmails)
  }

  /** Membership in the allow-list ignores case: an email is admitted
      exactly when some listed address equals it up to the case of its
      letters. */
  lemma EsEmailAdminSinMayusculas(adminEmails: seq<string>, email: string)
    ensures EsEmailAdmin(adminEmails, email) <==>
            exists i :: 0 <= i < |adminEmails| && IgualSinMayusculas(adminEmails[i], email)
  {
    var admins := EnMinusculas(adminEmails);
    if EsEmailAdmin(adminEmails, email) {
      var i :| 0 <= i < |admins| && admins[i] == ToLowerCase(email);
      ToLowerCaseIgual(adminEmails[i], email);
    }
    if i :| 0 <= i < |adminEmails| && IgualSinMayusculas(adminEmails[i], email) {
      ToLowerCaseIgual(adminEmails[i], email);
      assert admins[i] == ToLowerCase(email);
    }
  }

  /** Two emails that differ only in case are both admitted or both
      refused. */
  lemma EsEmailAdminInsensible(adminEmails: seq<string>, e1: string, e2: string)
    requires IgualSinMayusculas(e1, e2)
    ensures EsEmailAdmin(adminEmails, e1) == EsEmailAdmin(adminEmails, e2)
  {
    ToLowerCaseIgual(e1, e2);
  }

  /** The navigation `ngOnInit` makes once `cargando` is false, from the
      user snapshot at that moment: the home view of the role, or none
      without a user. */
  function RedireccionInicial(usuario: Option<Usuario>): (nav: Option<Navegacion>)
    ensures nav.None? <==> usuario.None?
    ensures usuario.Some? && usuario.value.rol == Admin ==> nav == Some(Navegacion("/admin", None))
    ensures usuario.Some? && usuario.value.rol == Cliente ==> nav == Some(Navegacion("/cliente", None))
  {
    if usuario.Some? then
      if usuario.value.rol == Admin then Some(Navegacion("/admin", None))
      else Some(Navegacion("/cliente", None))
    else None
  }

  /** The login view's own redirect agrees with `noAuthGuard`: both send a
      signed-in user to the same place. */
  lemma RedireccionInicialComoNoAuthGuard(usuario: Option<Usuario>)
    ensures RedireccionInicial(usuario) == NoAuthGuard(usuario).navegacion
  {
  }

  class LoginComponent {
    const auth: AuthService
    var loginModel: LoginModel
    var registerModel: RegisterModel
    var vistaActual: VistaLogin
    var cargando: bool
    var mensajeError: string

    /** Empty forms, the login form shown, nothing loading, no message. */
    constructor (auth: AuthService)
      ensures this.auth == auth
      ensures loginModel == LoginModel("", "") && registerModel == RegisterModel("", "", "", "")
      ensures vistaActual == LoginCliente && !cargando && mensajeError == ""
    {
      this.auth := auth;
      loginModel := LoginModel("", "");
      registerModel := RegisterModel("", "", "", "");
      vistaActual := LoginCliente;
      cargando := false;
      mensajeError := "";
    }

    /** `cambiarVista`: show the other form and drop the message. */
    method CambiarVista(vista: VistaLogin)
      modifies this
      ensures vistaActual == vista && mensajeError == ""
      ensures cargando == old(cargando)
      ensures loginModel == old(loginModel) && registerModel == old(registerModel)
    {
      vistaActual := vista;
      mensajeError := "";
    }

    /** `loginClienteCorreo`: validate, sign in, and keep the session only
        for a `cliente`. `inicio` is the sign-in's outcome, `lectura` the
        profile read after it, `salida` the sign-out's outcome. */
    method LoginClienteCorreo(inicio: Result<(), Falla>, lectura: Lectura, salida: Result<(), Falla>)
      returns (nav: Option<Navegacion>)
      modifies this, auth
      ensures vistaActual == old(vistaActual) && loginModel == old(loginModel) && registerModel == old(registerModel)
      ensures auth.cargando == old(auth.cargando)
      ensures !CredencialesValidas(loginModel.email, loginModel.contrasena) ==>
                nav.None? && mensajeError == MensajeLoginInvalido && cargando == old(cargando)
                && auth.usuario == old(auth.usuario)
      ensures CredencialesValidas(loginModel.email, loginModel.contrasena) ==> !cargando
      ensures CredencialesValidas(loginModel.email, loginModel.contrasena) && inicio.Err? ==>
                nav.None? && mensajeError == TraducirErrorAuth(inicio.error.codigo)
                && auth.usuario == old(auth.usuario)
      ensures CredencialesValidas(loginModel.email, loginModel.contrasena) && inicio.Ok? &&
              EsCliente(ObtenerDatosUsuario(lectura)) ==>
                nav == Some(Navegacion("/cliente", None)) && mensajeError == ""
                && auth.usuario == ObtenerDatosUsuario(lectura)
      ensures CredencialesValidas(loginModel.email, loginModel.contrasena) && inicio.Ok? &&
              !EsCliente(ObtenerDatosUsuario(lectura)) && salida.Ok? ==>
                nav.None? && mensajeError == MensajeNoEsCliente && auth.usuario.None?
      ensures CredencialesValidas(loginModel.email, loginModel.contrasena) && inicio.Ok? &&
              !EsCliente(ObtenerDatosUsuario(lectura)) && salida.Err? ==>
                nav.None? && mensajeError == Or(Some(salida.error.mensaje), MensajeErrorLogin)
                && auth.usuario == ObtenerDatosUsuario(lectura)
    {
      if !CredencialesValidas(loginModel.email, loginModel.contrasena) {
        mensajeError := MensajeLoginInvalido;
        return None;
      }
      cargando := true;
      mensajeError := "";
      nav := None;
      var error := auth.IniciarSesionConCorreo(inicio, lectura);
      if error.Some? {
        mensajeError := Or(error, MensajeErrorLogin);
      } else {
        var usuario := auth.usuario;
        if !EsCliente(usuario) {
          var errorSalida := auth.CerrarSesion(salida);
          if errorSalida.Some? {
            mensajeError := Or(Some(errorSalida.value.mensaje), MensajeErrorLogin);
          } else {
            mensajeError := MensajeNoEsCliente;
          }
        } else {
          nav := Some(Navegacion("/cliente", None));
        }
      }
      cargando := false;
    }

    /** `registroClienteCorreo`: validate, then register a `cliente` with
        the typed name. `creacion` is the account creation's outcome,
        `escritura` that of storing the profile. */
    method RegistroClienteCorreo(creacion: Result<Credencial, Falla>, escritura: Result<(), Falla>)
      returns (nav: Option<Navegacion>)
      modifies this, auth
      ensures vistaActual == old(vistaActual) && loginModel == old(loginModel) && registerModel == old(registerModel)
      ensures auth.cargando == old(auth.cargando)
      ensures !CredencialesValidas(registerModel.email, registerModel.contrasena) ==>
                nav.None? && mensajeError == MensajeRegistroInvalido && cargando == old(cargando)
                && auth.usuario == old(auth.usuario)
      ensures CredencialesValidas(registerModel.email, registerModel.contrasena) ==> !cargando
      ensures CredencialesValidas(registerModel.email, registerModel.contrasena) && creacion.Err? ==>
                nav.None? && mensajeError == TraducirErrorAuth(creacion.error.codigo)
                && auth.usuario == old(auth.usuario)
      ensures CredencialesValidas(registerModel.email, registerModel.contrasena) && creacion.Ok? && escritura.Err? ==>
                nav.None? && mensajeError == TraducirErrorAuth(escritura.error.codigo)
                && auth.usuario == old(auth.usuario)
      ensures CredencialesValidas(registerModel.email, registerModel.contrasena) && creacion.Ok? && escritura.Ok? ==>
                nav == Some(Navegacion("/cliente", None)) && mensajeError == ""
                && auth.usuario == Some(PerfilRegistro(creacion.value, registerModel.email, Cliente,
                     Some(DatosPerfil(Some(registerModel.nombre), Some(registerModel.apellido), None))))
                && auth.usuario.value.rol == Cliente
    {
      if !CredencialesValidas(registerModel.email, registerModel.contrasena) {
        mensajeError := MensajeRegistroInvalido;
        return None;
      }
      cargando := true;
      mensajeError := "";
      nav := None;
      var datos := DatosPerfil(Some(registerModel.nombre), Some(registerModel.apellido), None);
      var error := auth.RegistrarConCorreo(registerModel.email, Cliente, Some(datos), creacion, escritura);
      if error.Some? {
        mensajeError := Or(error, MensajeErrorRegistro);
      } else {
        nav := Some(Navegacion("/cliente", None));
      }
      cargando := false;
    }

    /** `iniciarSesionGoogle`: sign in with Google; an allow-listed email
        is promoted to `admin` unless it already is one, and sent to
        `/admin`; every other user is sent to `/cliente`. `promovido` says
        whether `asignarRolAdmin` was called; `lecturaPromocion` and
        `escrituraPromocion` are the outcomes of its read and write. That
        read is of `usuarios/{uid}` for the signed-in user, so a profile it
        finds carries that user's uid. */
    method IniciarSesionGoogle(adminEmails: seq<string>, popup: Result<Credencial, Falla>, lectura: Lectura,
                               escritura: Result<(), Falla>, lecturaPromocion: Lectura,
                               escrituraPromocion: Result<(), Falla>)
      returns (nav: Option<Navegacion>, promovido: bool)
      requires SesionGoogle(popup, lectura, escritura).Ok? && lecturaPromocion.Encontrado? ==>
                 lecturaPromocion.datos.uid == SesionGoogle(popup, lectura, escritura).value.uid
      modifies this, auth
      ensures vistaActual == old(vistaActual) && loginModel == old(loginModel) && registerModel == old(registerModel)
      ensures auth.cargando == old(auth.cargando)
      ensures !cargando
      ensures var g := SesionGoogle(popup, lectura, escritura);
              g.Err? ==> nav.None? && !promovido && mensajeError == g.error && auth.usuario == old(auth.usuario)
      ensures var g := SesionGoogle(popup, lectura, escritura);
              g.Ok? ==>
                && mensajeError == ""
                && (promovido <==> EsEmailAdmin(adminEmails, g.value.email) && g.value.rol != Admin)
                && (EsEmailAdmin(adminEmails, g.value.email) ==> nav == Some(Navegacion("/admin", None)))
                && (!EsEmailAdmin(adminEmails, g.value.email) ==> nav == Some(Navegacion("/cliente", None)))
      ensures var g := SesionGoogle(popup, lectura, escritura);
              g.Ok? ==> auth.usuario.Some? && auth.usuario.value.uid == g.value.uid
      ensures var g := SesionGoogle(popup, lectura, escritura);
              g.Ok? && promovido && lecturaPromocion.Encontrado? && escrituraPromocion.Ok? ==>
                auth.usuario == Some(PromoverAdmin(lecturaPromocion.datos))
      ensures var g := SesionGoogle(popup, lectura, escritura);
              g.Ok? && !(promovido && lecturaPromocion.Encontrado? && escrituraPromocion.Ok?) ==>
                auth.usuario == Some(g.value)
    {
      cargando := true;
      mensajeError := "";
      nav, promovido := None, false;
      var r := auth.IniciarSesionConGoogle(popup, lectura, escritura);
      if r.Err? {
        mensajeError := Or(Some(r.error), MensajeErrorGoogle);
      } else {
        var usuario := r.value;
        var email := ToLowerCase(Or(Some(usuario.email), ""));
        var admins := EnMinusculas(adminEmails);
        if email in admins {
          if usuario.rol != Admin {
            var _ := auth.AsignarRolAdmin(lecturaPromocion, escrituraPromocion);
            promovido := true;
          }
          nav := Some(Navegacion("/admin", None));
        } else {
          nav := Some(Navegacion("/cliente", None));
        }
      }
      cargando := false;
    }
  }
}
