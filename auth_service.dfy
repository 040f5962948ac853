/** The session and profile logic of `AuthService`: the user profile stored
    in `usuarios/{uid}`, how new profiles are built, the error-code table,
    and the published state `usuario` / `cargando`. Every Firebase call is
    replaced by a parameter that carries its outcome. */
module Auth {
  import opened Base
  import opened Texto

  /** The two access tiers. */
  datatype Rol = Cliente | Admin

  /** The profile document `usuarios/{uid}`; `nombre`, `apellido` and
      `telefono` are optional fields. */
  datatype Usuario = Usuario(
    uid: string,
    email: string,
    nombre: Option<string>,
    rol: Rol,
    apellido: Option<string>,
    telefono: Option<string>)

  /** There is a user and it is a customer: `usuario?.rol === 'cliente'`. */
  predicate EsCliente(usuario: Option<Usuario>)
  {
    usuario.Some? && usuario.value.rol == Cliente
  }

  /** A Firebase error: its `code` and its `message`. */
  datatype Falla = Falla(codigo: string, mensaje: string)

  /** What `getDoc(usuarios/{uid})` gives: the document, no document, or a
      failure of the read itself. */
  datatype Lectura = Encontrado(datos: Usuario) | Ausente | ErrorLectura

  /** The user a Firebase sign-in returns: `uid`, and the nullable `email`
      and `displayName`. */
  datatype Credencial = Credencial(uid: string, email: Option<string>, displayName: Option<string>)

  /** The optional `datos?: Partial<Usuario>` of a registration; only the
      three fields the source reads are kept. */
  datatype DatosPerfil = DatosPerfil(nombre: Option<string>, apellido: Option<string>, telefono: Option<string>)

  /** `obtenerDatosUsuario`: the profile when the document exists; a
      missing document and a failed read both give no profile. */
  function ObtenerDatosUsuario(lectura: Lectura): (r: Option<Usuario>)
    ensures r.None? <==> !lectura.Encontrado?
    ensures lectura.Encontrado? ==> r == Some(lectura.datos)
  {
    match lectura
    case Encontrado(datos) => Some(datos)
    case Ausente => None
    case ErrorLectura => None
  }

  /** The `{ ...datos, rol: 'admin' }` of `asignarRolAdmin`. */
  function PromoverAdmin(u: Usuario): (r: Usuario)
    ensures r.rol == Admin
    ensures r.(rol := u.rol) == u
  {
    u.(rol := Admin)
  }

  /** The profile `registrarConCorreo` stores: the credential's uid, its
      email or else the one typed, the requested role, and each optional
      field defaulting to the empty string. */
  function PerfilRegistro(cred: Credencial, email: string, rol: Rol, datos: Option<DatosPerfil>): (u: Usuario)
    ensures u.uid == cred.uid && u.rol == rol
    ensures u.email == (if cred.email.Some? && cred.email.value != "" then cred.email.value else email)
    ensures u.nombre.Some? && u.apellido.Some? && u.telefono.Some?
    ensures datos.None? ==> u.nombre == u.apellido == u.telefono == Some("")
    ensures datos.Some? ==> u.nombre == Some(Or(datos.value.nombre, ""))
    ensures datos.Some? ==> u.apellido == Some(Or(datos.value.apellido, ""))
    ensures datos.Some? ==> u.telefono == Some(Or(datos.value.telefono, ""))
  {
    var campos := if datos.Some? then datos.value else DatosPerfil(None, None, None);
    Usuario(
      cred.uid,
      Or(cred.email, email),
      Some(Or(campos.nombre, "")),
      rol,
      Some(Or(campos.apellido, "")),
      Some(Or(campos.telefono, "")))
  }

  /** `displayName?.split(' ')[0] || ''`. */
  function Nombre(displayName: Option<string>): string
  {
    if displayName.Some? then Split(displayName.value)[0] else ""
  }

  /** `displayName?.split(' ').slice(1).join(' ') || ''`. */
  function Apellido(displayName: Option<string>): string
  {
    if displayName.Some? then Join(Split(displayName.value)[1..]) else ""
  }

  /** The profile a first Google sign-in creates: always a `cliente`, with
      no phone, the first word of the display name as `nombre` and the
      remaining words as `apellido`. */
  function PerfilGoogle(cred: Credencial): (u: Usuario)
    ensures u.uid == cred.uid && u.rol == Cliente && u.telefono.None?
    ensures u.email == Or(cred.email, "")
    ensures u.nombre.Some? && u.apellido.Some? && ' ' !in u.nombre.value
    ensures cred.displayName.None? ==> u.nombre == u.apellido == Some("")
    ensures cred.displayName.Some? && ' ' !in cred.displayName.value ==>
              u.nombre == cred.displayName && u.apellido == Some("")
    ensures cred.displayName.Some? && ' ' in cred.displayName.value ==>
              u.nombre.value + " " + u.apellido.value == cred.displayName.value
  {
    if cred.displayName.Some? && ' ' in cred.displayName.value then
      PrimeraPalabraYResto(cred.displayName.value);
      Usuario(cred.uid, Or(cred.email, ""), Some(Nombre(cred.displayName)), Cliente,
              Some(Apellido(cred.displayName)), None)
    else
      Usuario(cred.uid, Or(cred.email, ""), Some(Nombre(cred.displayName)), Cliente,
              Some(Apellido(cred.displayName)), None)
  }

  /** Prefix of the message for an error code the table does not list. */
  const PrefijoErrorGenerico: string := "Error de autenticación: "

  /** The static table of `traducirErrorAuth`. The two longest messages are
      written as two literals so that the verifier sees their characters. */
  const ErroresAuth: map<string, string> := map[
    "auth/email-already-in-use" := "Este correo ya está registrado",
    "auth/invalid-email" := "Correo inválido",
    "auth/operation-not-allowed" := "Operación no permitida",
    "auth/weak-password" := "La contraseña es muy débil " + "(mín. 6 caracteres)",
    "auth/user-disabled" := "Usuario deshabilitado",
    "auth/user-not-found" := "Usuario no encontrado",
    "auth/wrong-password" := "Contraseña incorrecta",
    "auth/invalid-credential" := "Credenciales inválidas",
    "auth/too-many-requests" := "Demasiados intentos de acceso. " + "Intenta más tarde"
  ]

  /** The codes the table lists. */
  const CodigosListados: set<string> := {
    "auth/email-already-in-use", "auth/invalid-email", "auth/operation-not-allowed",
    "auth/weak-password", "auth/user-disabled", "auth/user-not-found",
    "auth/wrong-password", "auth/invalid-credential", "auth/too-many-requests"
  }

  /** `traducirErrorAuth`: the Spanish message for each of the nine listed
      codes, and the generic message carrying the code for any other. */
  function TraducirErrorAuth(codigo: string): (mensaje: string)
    ensures codigo == "auth/email-already-in-use" ==> mensaje == "Este correo ya está registrado"
    ensures codigo == "auth/invalid-email" ==> mensaje == "Correo inválido"
    ensures codigo == "auth/operation-not-allowed" ==> mensaje == "Operación no permitida"
    ensures codigo == "auth/weak-password" ==> mensaje == "La contraseña es muy débil " + "(mín. 6 caracteres)"
    ensures codigo == "auth/user-disabled" ==> mensaje == "Usuario deshabilitado"
    ensures codigo == "auth/user-not-found" ==> mensaje == "Usuario no encontrado"
    ensures codigo == "auth/wrong-password" ==> mensaje == "Contraseña incorrecta"
    ensures codigo == "auth/invalid-credential" ==> mensaje == "Credenciales inválidas"
    ensures codigo == "auth/too-many-requests" ==> mensaje == "Demasiados intentos de acceso. " + "Intenta más tarde"
    ensures codigo !in CodigosListados ==> mensaje == PrefijoErrorGenerico + codigo
    ensures mensaje != ""
  {
    if codigo in ErroresAuth then ErroresAuth[codigo] else PrefijoErrorGenerico + codigo
  }

  /** No message of the table starts like a generic message: the first
      two characters already differ. */
  lemma TablaSinPrefijoGenerico(codigo: string)
    requires codigo in CodigosListados
    ensures !(PrefijoErrorGenerico <= TraducirErrorAuth(codigo))
  {
    var m := TraducirErrorAuth(codigo);
    if codigo == "auth/email-already-in-use" {
      assert m[1] == 's';
    } else if codigo == "auth/invalid-email" {
      assert m[0] == 'C';
    } else if codigo == "auth/operation-not-allowed" {
      assert m[0] == 'O';
    } else if codigo == "auth/weak-password" {
      assert m[0] == 'L';
    } else if codigo == "auth/user-disabled" {
      assert m[0] == 'U';
    } else if codigo == "auth/user-not-found" {
      assert m[0] == 'U';
    } else if codigo == "auth/wrong-password" {
      assert m[0] == 'C';
    } else if codigo == "auth/invalid-credential" {
      assert m[0] == 'C';
    } else {
      assert codigo == "auth/too-many-requests";
      assert m[0] == 'D';
    }
    assert PrefijoErrorGenerico[0] == 'E' && PrefijoErrorGenerico[1] == 'r';
  }

  /** A code the table does not list gets a message that no other code
      gets: the generic messages tell every unlisted code apart from
      every other code. */
  lemma MensajeGenericoInyectivo(c1: string, c2: string)
    requires c1 != c2 && c2 !in CodigosListados
    ensures TraducirErrorAuth(c1) != TraducirErrorAuth(c2)
  {
    var p := PrefijoErrorGenerico;
    if c1 !in CodigosListados {
      assert (p + c1)[|p|..] == c1 && (p + c2)[|p|..] == c2;
    } else {
      TablaSinPrefijoGenerico(c1);
      assert p <= p + c2;
    }
  }

  /** What `iniciarSesionConGoogle` returns, or the message it throws,
      given the popup's outcome, the profile read and the profile write. */
  function SesionGoogle(popup: Result<Credencial, Falla>, lectura: Lectura, escritura: Result<(), Falla>)
    : (r: Result<Usuario, string>)
    ensures popup.Err? ==> r == Err("Error al iniciar sesión con Google: " + popup.error.mensaje)
    ensures popup.Ok? && lectura.Encontrado? ==> r == Ok(lectura.datos)
    ensures popup.Ok? && !lectura.Encontrado? && escritura.Ok? ==> r == Ok(PerfilGoogle(popup.value))
    ensures popup.Ok? && !lectura.Encontrado? && escritura.Err? ==>
              r == Err("Error al iniciar sesión con Google: " + escritura.error.mensaje)
    ensures r.Ok? && !lectura.Encontrado? ==> r.value.rol == Cliente
  {
    match popup
    case Err(f) => Err("Error al iniciar sesión con Google: " + f.mensaje)
    case Ok(cred) =>
      match ObtenerDatosUsuario(lectura)
      case Some(existente) => Ok(existente)
      case None =>
        match escritura
        case Ok(_) => Ok(PerfilGoogle(cred))
        case Err(f) => Err("Error al iniciar sesión con Google: " + f.mensaje)
  }

  /** Google sign-in never changes the role of a profile it could read;
      when no profile is read, the one it creates is a `cliente`. */
  lemma SesionGoogleConservaRol(popup: Result<Credencial, Falla>, lectura: Lectura, escritura: Result<(), Falla>)
    requires SesionGoogle(popup, lectura, escritura).Ok?
    ensures lectura.Encontrado? ==> SesionGoogle(popup, lectura, escritura).value == lectura.datos
    ensures SesionGoogle(popup, lectura, escritura).value.rol == Cliente
            || (lectura.Encontrado? && lectura.datos.rol == Admin)
  {
  }

  /** A failed profile read is taken for a missing profile: the sign-in
      then writes a fresh `cliente` profile with no phone over
      `usuarios/{uid}` (a `setDoc` without merge), whatever was stored
      there, so a stored `admin` comes back as a `cliente`. */
  lemma SesionGoogleLecturaFallida(cred: Credencial, escritura: Result<(), Falla>)
    requires escritura.Ok?
    ensures SesionGoogle(Ok(cred), ErrorLectura, escritura) == SesionGoogle(Ok(cred), Ausente, escritura)
    ensures SesionGoogle(Ok(cred), ErrorLectura, escritura) == Ok(PerfilGoogle(cred))
    ensures SesionGoogle(Ok(cred), ErrorLectura, escritura).value.rol == Cliente
    ensures SesionGoogle(Ok(cred), ErrorLectura, escritura).value.telefono.None?
  {
  }

  /** The published state of `AuthService`: the values of `usuarioSubject`
      and `cargandoSubject`. */
  class AuthService {
    var usuario: Option<Usuario>
    var cargando: bool

    /** No user is known and the session check has not finished. */
    constructor ()
      ensures usuario.None? && cargando
    {
      usuario := None;
      cargando := true;
    }

    /** The `onAuthStateChanged` callback that `verificarSesion` installs:
        `sesion` is `None` when Firebase reports no user, and otherwise the
        outcome of reading that user's profile. */
    method AlCambiarEstadoSesion(sesion: Option<Lectura>)
      modifies this
      ensures !cargando
      ensures sesion.None? ==> usuario.None?
      ensures sesion.Some? ==> usuario == ObtenerDatosUsuario(sesion.value)
    {
      if sesion.Some? {
        var datos := ObtenerDatosUsuario(sesion.value);
        usuario := datos;
        cargando := false;
      } else {
        usuario := None;
        cargando := false;
      }
    }

    /** `asignarRolAdmin`: promote the stored profile and publish it; a
        missing profile, a failed read or a failed write give `None` and
        publish nothing. */
    method AsignarRolAdmin(lectura: Lectura, escritura: Result<(), Falla>) returns (r: Option<Usuario>)
      modifies this
      ensures cargando == old(cargando)
      ensures lectura.Encontrado? && escritura.Ok? ==>
                r == Some(PromoverAdmin(lectura.datos)) && usuario == r
      ensures !(lectura.Encontrado? && escritura.Ok?) ==> r.None? && usuario == old(usuario)
    {
      if lectura.ErrorLectura? {
        return None;
      }
      if lectura.Encontrado? {
        var actualizado := lectura.datos.(rol := Admin);
        if escritura.Err? {
          return None;
        }
        usuario := Some(actualizado);
        return Some(actualizado);
      }
      return None;
    }

    /** `registrarConCorreo`: create the account, store the profile and
        publish it; any failure is thrown as its translated message. */
    method RegistrarConCorreo(email: string, rol: Rol, datos: Option<DatosPerfil>,
                              creacion: Result<Credencial, Falla>, escritura: Result<(), Falla>)
      returns (error: Option<string>)
      modifies this
      ensures cargando == old(cargando)
      ensures creacion.Err? ==> error == Some(TraducirErrorAuth(creacion.error.codigo)) && usuario == old(usuario)
      ensures creacion.Ok? && escritura.Err? ==>
                error == Some(TraducirErrorAuth(escritura.error.codigo)) && usuario == old(usuario)
      ensures creacion.Ok? && escritura.Ok? ==>
                error.None? && usuario == Some(PerfilRegistro(creacion.value, email, rol, datos))
    {
      if creacion.Err? {
        return Some(TraducirErrorAuth(creacion.error.codigo));
      }
      var perfil := PerfilRegistro(creacion.value, email, rol, datos);
      if escritura.Err? {
        return Some(TraducirErrorAuth(escritura.error.codigo));
      }
      usuario := Some(perfil);
      return None;
    }

    /** `iniciarSesionConCorreo`: sign in, then publish the stored profile
        (none if it is missing or cannot be read); a failed sign-in is
        thrown as its translated message. */
    method IniciarSesionConCorreo(inicio: Result<(), Falla>, lectura: Lectura) returns (error: Option<string>)
      modifies this
      ensures cargando == old(cargando)
      ensures inicio.Err? ==> error == Some(TraducirErrorAuth(inicio.error.codigo)) && usuario == old(usuario)
      ensures inicio.Ok? ==> error.None? && usuario == ObtenerDatosUsuario(lectura)
    {
      if inicio.Err? {
        return Some(TraducirErrorAuth(inicio.error.codigo));
      }
      usuario := ObtenerDatosUsuario(lectura);
      return None;
    }

    /** `iniciarSesionConGoogle`: publish and return the existing profile,
        or create, store and publish a `cliente` profile. */
    method IniciarSesionConGoogle(popup: Result<Credencial, Falla>, lectura: Lectura, escritura: Result<(), Falla>)
      returns (r: Result<Usuario, string>)
      modifies this
      ensures cargando == old(cargando)
      ensures r == SesionGoogle(popup, lectura, escritura)
      ensures r.Ok? ==> usuario == Some(r.value)
      ensures r.Err? ==> usuario == old(usuario)
    {
      if popup.Err? {
        return Err("Error al iniciar sesión con Google: " + popup.error.mensaje);
      }
      var datos := ObtenerDatosUsuario(lectura);
      if datos.None? {
        var nuevo := PerfilGoogle(popup.value);
        if escritura.Err? {
          return Err("Error al iniciar sesión con Google: " + escritura.error.mensaje);
        }
        usuario := Some(nuevo);
        return Ok(nuevo);
      } else {
        usuario := datos;
        return Ok(datos.value);
      }
    }

    /** `cerrarSesion`: sign out and publish no user; a failed sign-out is
        rethrown unchanged and publishes nothing. */
    method CerrarSesion(salida: Result<(), Falla>) returns (error: Option<Falla>)
      modifies this
      ensures cargando == old(cargando)
      ensures salida.Ok? ==> error.None? && usuario.None?
      ensures salida.Err? ==> error == Some(salida.error) && usuario == old(usuario)
    {
      if salida.Err? {
        return Some(salida.error);
      }
      usuario := None;
      return None;
    }

    /** `obtenerRolActual`: the current user's role, or none without a
        user. */
    function ObtenerRolActual(): (r: Option<Rol>)
      reads this
      ensures r.None? <==> usuario.None?
      ensures usuario.Some? ==> r == Some(usuario.value.rol)
    {
      if usuario.Some? then Some(usuario.value.rol) else None
    }
  }
}
