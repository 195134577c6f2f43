/**
 * The cookie jar a route receives and hands back (axum_extra's `CookieJar`),
 * reduced to what the routes observe: one value per cookie name.
 */
module CookieJar {
  import opened Wrappers

  datatype Cookie = Cookie(name: string, value: string)

  type CookieJar = map<string, string>

  /**
   * The name of the session cookie (`JWT_COOKIE_NAME`). The constants file
   * that fixes it is not part of this model; only its being one fixed name matters.
   */
  const JwtCookieName: string := "jwt"

  /** `jar.get(name)`: the value of the cookie called `name`, if any. */
  function Get(jar: CookieJar, name: string): (r: Option<string>)
    ensures r.Some? <==> name in jar
    ensures r.Some? ==> r.value == jar[name]
  {
    if name in jar then Some(jar[name]) else None
  }

  /** `jar.add(cookie)`: a new jar in which `cookie` replaces any cookie of the same name. */
  function Add(jar: CookieJar, cookie: Cookie): (r: CookieJar)
    ensures Get(r, cookie.name) == Some(cookie.value)
    ensures forall n :: n != cookie.name ==> Get(r, n) == Get(jar, n)
  {
    jar[cookie.name := cookie.value]
  }

  /** `jar.remove(name)`: a new jar without the cookie called `name`. */
  function Remove(jar: CookieJar, name: string): (r: CookieJar)
    ensures Get(r, name) == None
    ensures forall n :: n != name ==> Get(r, n) == Get(jar, n)
  {
    jar - {name}
  }
}
