/**
 * The part of Python's `urllib.parse.urlparse` the session relies on: the scheme, the
 * network location (`netloc`) and the host name of a URL.
 */
module Urls {

  import opened Wrappers
  import opened Strings

  predicate SchemeChar(c: char) {
    IsAsciiLetter(c) || IsDigit(c) || c == '+' || c == '-' || c == '.'
  }

  /** A well-formed scheme name: a letter followed by letters, digits, '+', '-' or '.'. */
  predicate IsSchemeName(s: string) {
    s != [] && IsAsciiLetter(s[0]) && forall j | 0 <= j < |s| :: SchemeChar(s[j])
  }

  /** The text before the first ':' is a scheme only when it is a well-formed scheme name. */
  predicate HasScheme(u: string) {
    var head := UpTo(u, {':'});
    |head| < |u| && IsSchemeName(head)
  }

  /** `urlparse(u).scheme`, lower-cased, or "" when there is none. */
  function Scheme(u: string): (s: string)
    ensures s == "" || IsSchemeName(s)
  {
    if HasScheme(u) then Lower(UpTo(u, {':'})) else ""
  }

  /** What follows the scheme and its ':' (all of `u` when there is no scheme). */
  function AfterScheme(u: string): (rest: string)
    ensures |rest| <= |u|
  {
    if HasScheme(u) then u[|UpTo(u, {':'})| + 1..] else u
  }

  /** `urlparse(u).netloc`: after a "//", everything up to the first '/', '?' or '#'. */
  function Netloc(u: string): (n: string)
    ensures '/' !in n && '?' !in n && '#' !in n
  {
    var rest := AfterScheme(u);
    if "//" <= rest then UpTo(rest[2..], {'/', '?', '#'}) else ""
  }

  /** `urlparse(u).hostname`: the netloc without user information and port, lower-cased; None when empty. */
  function Hostname(u: string): (h: Option<string>)
    ensures h.Some? ==> h.value != ""
  {
    var host := Lower(UpTo(AfterLast(Netloc(u), '@'), {':'}));
    if host == "" then None else Some(host)
  }

  /** A URL that starts with a scheme name and "://" is read back into that scheme and the rest. */
  lemma ParseSchemePrefix(scheme: string, rest: string)
    requires IsSchemeName(scheme)
    ensures Scheme(scheme + "://" + rest) == Lower(scheme)
    ensures AfterScheme(scheme + "://" + rest) == "//" + rest
  {
    var u := scheme + "://" + rest;
    assert u == scheme + (":" + "//" + rest);
    UpToStops(scheme, ":" + "//" + rest, {':'});
    assert u[|scheme| + 1..] == "//" + rest;
  }

  /** A URL built from a scheme, "://", a location and a path, query or fragment is read back into those parts. */
  lemma ParseBuiltUrl(scheme: string, location: string, tail: string)
    requires IsSchemeName(scheme)
    requires Avoids(location, {'/', '?', '#'})
    requires tail == [] || tail[0] in {'/', '?', '#'}
    ensures Scheme(scheme + "://" + location + tail) == Lower(scheme)
    ensures Netloc(scheme + "://" + location + tail) == location
  {
    var u := scheme + "://" + location + tail;
    assert u == scheme + "://" + (location + tail);
    ParseSchemePrefix(scheme, location + tail);
    assert ("//" + (location + tail))[2..] == location + tail;
    if tail == [] {
      assert location + tail == location;
    } else {
      UpToStops(location, tail, {'/', '?', '#'});
    }
  }

  /** A host name without any of the delimiters of a URL's network location. */
  predicate PlainHost(host: string) {
    forall i | 0 <= i < |host| :: host[i] !in {'/', '?', '#', '@', ':'}
  }

  /** A network location "[user@]host[:port]". */
  function Authority(user: Option<string>, host: string, port: string): string {
    (if user.Some? then user.value + "@" else "") + host + port
  }

  /** The delimiters that end a network location do not occur in one built from delimiter-free parts. */
  lemma AuthorityAvoids(user: Option<string>, host: string, port: string)
    requires PlainHost(host)
    requires user.Some? ==> Avoids(user.value, {'/', '?', '#'})
    requires Avoids(port, {'/', '?', '#', '@'})
    ensures Avoids(host + port, {'/', '?', '#', '@'})
    ensures Avoids(Authority(user, host, port), {'/', '?', '#'})
  {
    var hp := host + port;
    assert Avoids(hp, {'/', '?', '#', '@'}) by {
      forall i | 0 <= i < |hp| ensures hp[i] !in {'/', '?', '#', '@'} {
        if i >= |host| { assert hp[i] == port[i - |host|]; }
      }
    }
    var location := Authority(user, host, port);
    if user.Some? {
      var w := user.value + "@";
      assert location == w + hp;
      forall i | 0 <= i < |location| ensures location[i] !in {'/', '?', '#'} {
        if i >= |w| { assert location[i] == hp[i - |w|]; }
        else if i < |user.value| { assert location[i] == user.value[i]; }
      }
    } else {
      assert location == hp;
    }
  }

  /** The host name part of a network location: after the user information, before the port. */
  lemma AuthorityHost(user: Option<string>, host: string, port: string)
    requires PlainHost(host)
    requires port == [] || port[0] == ':'
    requires Avoids(host + port, {'/', '?', '#', '@'})
    ensures Lower(UpTo(AfterLast(Authority(user, host, port), '@'), {':'})) == Lower(host)
  {
    var hp := host + port;
    if user.Some? {
      assert Authority(user, host, port) == user.value + ['@'] + hp;
      AfterLastSplit(user.value, '@', hp);
    } else {
      assert Authority(user, host, port) == hp;
      AfterLastAbsent(hp, '@');
    }
    if port == [] {
      assert hp == host;
      UpToAll(host, {':'});
    } else {
      UpToStops(host, port, {':'});
    }
  }

  /** The host of "scheme://[user@]host[:port]<tail>" is read back in lower case, without the user information and the port. */
  lemma HostnameOfBuiltUrl(scheme: string, user: Option<string>, host: string, port: string, tail: string)
    requires IsSchemeName(scheme) && host != [] && PlainHost(host)
    requires user.Some? ==> Avoids(user.value, {'/', '?', '#'})
    requires port == [] || port[0] == ':'
    requires Avoids(port, {'/', '?', '#', '@'})
    requires tail == [] || tail[0] in {'/', '?', '#'}
    ensures Scheme(scheme + "://" + Authority(user, host, port) + tail) == Lower(scheme)
    ensures Hostname(scheme + "://" + Authority(user, host, port) + tail) == Some(Lower(host))
  {
    AuthorityAvoids(user, host, port);
    ParseBuiltUrl(scheme, Authority(user, host, port), tail);
    AuthorityHost(user, host, port);
  }
}
