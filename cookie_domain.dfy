/**
 * LoginPresenter.getDomain: the cookie domain inferred from the host page's
 * base URL by three regular-expression replacements, in order: any run of
 * characters ending in a double slash is deleted (everything through the last
 * "//"), then every remaining '/', then everything from the first ':'; the
 * result is null for "localhost" in any letter case.
 * Each replacement is written out directly for a single-line input, where
 * Java's '.' matches every character.
 */
module CookieDomain {
  import opened Wrappers

  /** The characters Java's regex '.' does not match. */
  predicate IsLineTerminator(c: char)
  {
    c == '\n' || c == '\r' || c == '\U{85}' || c == '\U{2028}' || c == '\U{2029}'
  }

  predicate SingleLine(s: string)
  {
    forall i :: 0 <= i < |s| ==> !IsLineTerminator(s[i])
  }

  // ---------------------------------------------------------------------
  // First replacement: any characters followed by "//" are deleted

  predicate DoubleSlashAt(s: string, j: int)
  {
    0 <= j && j + 1 < |s| && s[j] == '/' && s[j + 1] == '/'
  }

  predicate HasDoubleSlash(s: string)
  {
    exists j :: 0 <= j < |s| && DoubleSlashAt(s, j)
  }

  /** j is where the last "//" of s starts: the greedy ".*" runs up to it. */
  ghost predicate LastDoubleSlashAt(s: string, j: int)
  {
    DoubleSlashAt(s, j) && forall k :: DoubleSlashAt(s, k) ==> k <= j
  }

  function AfterLastDoubleSlash(s: string): (r: string)
    ensures |r| <= |s|
    decreases |s|
  {
    if |s| < 2 then s
    else if HasDoubleSlash(s[1..]) then AfterLastDoubleSlash(s[1..])
    else if s[0] == '/' && s[1] == '/' then s[2..]
    else s
  }

  /** What the first replacement keeps is always a suffix of its input. */
  lemma {:induction false} AfterLastDoubleSlashIsSuffix(s: string)
    ensures AfterLastDoubleSlash(s) == s[|s| - |AfterLastDoubleSlash(s)|..]
    decreases |s|
  {
    if |s| >= 2 && HasDoubleSlash(s[1..]) {
      AfterLastDoubleSlashIsSuffix(s[1..]);
      var r := AfterLastDoubleSlash(s[1..]);
      assert s[1..][|s[1..]| - |r|..] == s[|s| - |r|..];
    }
  }

  lemma DoubleSlashShift(s: string, j: int)
    requires |s| >= 1 && j >= 0
    ensures DoubleSlashAt(s[1..], j) <==> DoubleSlashAt(s, j + 1)
  {
  }

  /** The first replacement leaves s alone when it has no "//", and otherwise
      keeps exactly what follows the last "//". */
  lemma {:induction false} AfterLastDoubleSlashSpec(s: string)
    ensures !HasDoubleSlash(s) ==> AfterLastDoubleSlash(s) == s
    ensures HasDoubleSlash(s) ==>
      exists j :: LastDoubleSlashAt(s, j) && AfterLastDoubleSlash(s) == s[j + 2..]
    decreases |s|
  {
    if |s| < 2 {
      assert !HasDoubleSlash(s);
    } else if HasDoubleSlash(s[1..]) {
      AfterLastDoubleSlashSpec(s[1..]);
      var j' :| LastDoubleSlashAt(s[1..], j') && AfterLastDoubleSlash(s[1..]) == s[1..][j' + 2..];
      DoubleSlashShift(s, j');
      forall k | DoubleSlashAt(s, k) ensures k <= j' + 1 {
        if k >= 1 { DoubleSlashShift(s, k - 1); }
      }
      assert s[1..][j' + 2..] == s[j' + 3..];
      assert LastDoubleSlashAt(s, j' + 1);
    } else {
      forall k | DoubleSlashAt(s, k) ensures k == 0 {
        if k >= 1 { DoubleSlashShift(s, k - 1); }
      }
      if s[0] == '/' && s[1] == '/' {
        assert LastDoubleSlashAt(s, 0);
      }
    }
  }

  /** Whatever the first replacement leaves has no "//" left in it. */
  lemma AfterLastDoubleSlashHasNone(s: string)
    ensures !HasDoubleSlash(AfterLastDoubleSlash(s))
  {
    AfterLastDoubleSlashSpec(s);
    var r := AfterLastDoubleSlash(s);
    if HasDoubleSlash(s) {
      var j :| LastDoubleSlashAt(s, j) && r == s[j + 2..];
      forall k | DoubleSlashAt(r, k) ensures false {
        assert DoubleSlashAt(s, j + 2 + k);
      }
    }
  }

  // ---------------------------------------------------------------------
  // Second replacement: "/" -> ""

  function RemoveSlashes(s: string): (r: string)
    ensures forall i :: 0 <= i < |r| ==> r[i] != '/'
    ensures multiset(r) == multiset(s)['/' := 0]
  {
    if s == [] then []
    else
      assert s == [s[0]] + s[1..];
      if s[0] == '/' then RemoveSlashes(s[1..]) else [s[0]] + RemoveSlashes(s[1..])
  }

  /** The second replacement keeps every other character, in order. */
  lemma {:induction false} RemoveSlashesKeepsOthers(s: string)
    requires forall i :: 0 <= i < |s| ==> s[i] != '/'
    ensures RemoveSlashes(s) == s
  {
    if s != [] {
      RemoveSlashesKeepsOthers(s[1..]);
    }
  }

  // ---------------------------------------------------------------------
  // Third replacement: a ':' and everything after it are deleted

  /** The longest prefix of s without a ':'. */
  function TruncateAtColon(s: string): (r: string)
    ensures |r| <= |s| && r == s[..|r|]
    ensures forall i :: 0 <= i < |r| ==> r[i] != ':'
    ensures |r| < |s| ==> s[|r|] == ':'
  {
    if s == [] || s[0] == ':' then [] else [s[0]] + TruncateAtColon(s[1..])
  }

  // ---------------------------------------------------------------------
  // The whole transform

  /** The base URL after the three replacements. */
  function StrippedHost(url: string): (host: string)
    ensures forall i :: 0 <= i < |host| ==> host[i] != '/' && host[i] != ':'
  {
    TruncateAtColon(RemoveSlashes(AfterLastDoubleSlash(url)))
  }

  function ToLowerAscii(c: char): char
  {
    if 'A' <= c <= 'Z' then (c as int - 'A' as int + 'a' as int) as char else c
  }

  /** String.equalsIgnoreCase, with letter case folded for ASCII letters. */
  predicate EqualsIgnoreCase(a: string, b: string)
    ensures EqualsIgnoreCase(a, b) ==> |a| == |b|
    ensures a == b ==> EqualsIgnoreCase(a, b)
  {
    |a| == |b| && forall i :: 0 <= i < |a| ==> ToLowerAscii(a[i]) == ToLowerAscii(b[i])
  }

  /** getDomain: the stripped host, or null (None) when it is "localhost". */
  function GetDomain(url: string): (domain: Option<string>)
    requires SingleLine(url)
    ensures domain.None? <==> EqualsIgnoreCase("localhost", StrippedHost(url))
    ensures domain.Some? ==> domain.value == StrippedHost(url)
    ensures domain.Some? ==> forall i :: 0 <= i < |domain.value| ==>
      domain.value[i] != '/' && domain.value[i] != ':'
  {
    var host := StrippedHost(url);
    if EqualsIgnoreCase("localhost", host) then None else Some(host)
  }

  lemma {:induction false} RemoveSlashesAppend(a: string, b: string)
    ensures RemoveSlashes(a + b) == RemoveSlashes(a) + RemoveSlashes(b)
  {
    if a == [] {
      assert a + b == b;
    } else {
      var ab := a + b;
      assert ab[0] == a[0] && ab[1..] == a[1..] + b;
      RemoveSlashesAppend(a[1..], b);
      if a[0] != '/' {
        calc {
          RemoveSlashes(ab);
          [a[0]] + RemoveSlashes(a[1..] + b);
          [a[0]] + (RemoveSlashes(a[1..]) + RemoveSlashes(b));
          ([a[0]] + RemoveSlashes(a[1..])) + RemoveSlashes(b);
        }
      }
    }
  }

  /** The first replacement on a URL whose only "//" follows the scheme. */
  lemma AfterSchemeSeparator(scheme: string, rest: string)
    requires |rest| >= 2
    requires forall i :: 0 <= i < |rest| - 1 ==> rest[i] != '/'
    ensures AfterLastDoubleSlash(scheme + "//" + rest) == rest
  {
    var s := scheme + "//" + rest;
    var n := |scheme|;
    assert DoubleSlashAt(s, n);
    assert HasDoubleSlash(s) by { assert 0 <= n < |s|; }
    forall k | DoubleSlashAt(s, k) ensures k <= n { }
    AfterLastDoubleSlashSpec(s);
    var j :| LastDoubleSlashAt(s, j) && AfterLastDoubleSlash(s) == s[j + 2..];
    assert j == n;
    assert s[n + 2..] == rest;
  }

  /** The third replacement on host ":" port, when the host has no ':'. */
  lemma TruncateAtHostColon(host: string, port: string)
    requires forall i :: 0 <= i < |host| ==> host[i] != ':'
    ensures TruncateAtColon(host + ":" + port) == host
  {
    var hostPort := host + ":" + port;
    var t := TruncateAtColon(hostPort);
    assert hostPort[|host|] == ':';
    assert forall i :: 0 <= i < |host| ==> hostPort[i] == host[i];
    assert t == hostPort[..|host|] == host;
  }

  lemma HostPortHasNoSlash(host: string, port: string)
    requires forall i :: 0 <= i < |host| ==> host[i] != '/'
    requires forall i :: 0 <= i < |port| ==> port[i] != '/'
    ensures forall i :: 0 <= i < |host + ":" + port| ==> (host + ":" + port)[i] != '/'
  {
    forall i | 0 <= i < |host + ":" + port| ensures (host + ":" + port)[i] != '/' {
      if i > |host| { assert (host + ":" + port)[i] == port[i - |host| - 1]; }
    }
  }

  /** The second replacement on a slash-free string with a trailing '/'. */
  lemma RemoveTrailingSlash(t: string)
    requires forall i :: 0 <= i < |t| ==> t[i] != '/'
    ensures RemoveSlashes(t + "/") == t
  {
    RemoveSlashesAppend(t, "/");
    RemoveSlashesKeepsOthers(t);
    assert RemoveSlashes("/") == [];
  }

  lemma StrippedHostOf(scheme: string, host: string, port: string)
    requires forall i :: 0 <= i < |host| ==> host[i] != '/' && host[i] != ':'
    requires forall i :: 0 <= i < |port| ==> port[i] != '/'
    ensures StrippedHost(scheme + "//" + host + ":" + port + "/") == host
  {
    var hostPort := host + ":" + port;
    var rest := hostPort + "/";
    HostPortHasNoSlash(host, port);
    assert scheme + "//" + host + ":" + port + "/" == scheme + "//" + rest;
    assert forall i :: 0 <= i < |rest| - 1 ==> rest[i] == hostPort[i];
    AfterSchemeSeparator(scheme, rest);
    RemoveTrailingSlash(hostPort);
    TruncateAtHostColon(host, port);
  }

  lemma SingleLineAppend(a: string, b: string)
    requires SingleLine(a) && SingleLine(b)
    ensures SingleLine(a + b)
  {
    forall i | 0 <= i < |a + b| ensures !IsLineTerminator((a + b)[i]) {
      if i >= |a| { assert (a + b)[i] == b[i - |a|]; }
    }
  }

  /** For a base URL of the usual shape, scheme "//" host ":" port "/", the
      inferred domain is the host, unless the host is localhost. */
  lemma GetDomainOfHostAndPort(scheme: string, host: string, port: string)
    requires SingleLine(scheme) && SingleLine(host) && SingleLine(port)
    requires forall i :: 0 <= i < |host| ==> host[i] != '/' && host[i] != ':'
    requires forall i :: 0 <= i < |port| ==> port[i] != '/'
    ensures SingleLine(scheme + "//" + host + ":" + port + "/")
    ensures GetDomain(scheme + "//" + host + ":" + port + "/") ==
      if EqualsIgnoreCase("localhost", host) then None else Some(host)
  {
    SingleLineAppend(scheme, "//");
    SingleLineAppend(scheme + "//", host);
    SingleLineAppend(scheme + "//" + host, ":");
    SingleLineAppend(scheme + "//" + host + ":", port);
    SingleLineAppend(scheme + "//" + host + ":" + port, "/");
    StrippedHostOf(scheme, host, port);
  }

  /** The host part of an http URL with a port: the scheme, the port and the
      trailing slash all go. */
  lemma GetDomainOfUrlWithPort()
    ensures GetDomain("http://example.com:8080/") == Some("example.com")
  {
    var host := "example.com";
    assert "http://example.com:8080/" == "http:" + "//" + host + ":" + "8080" + "/";
    assert !EqualsIgnoreCase("localhost", host);
    GetDomainOfHostAndPort("http:", host, "8080");
  }

  /** localhost, in any letter case and on any port, gives no domain. */
  lemma GetDomainOfLocalhost()
    ensures GetDomain("http://LocalHost:8888/").None?
  {
    var host := "LocalHost";
    assert "http://LocalHost:8888/" == "http:" + "//" + host + ":" + "8888" + "/";
    assert EqualsIgnoreCase("localhost", host);
    GetDomainOfHostAndPort("http:", host, "8888");
  }
}
