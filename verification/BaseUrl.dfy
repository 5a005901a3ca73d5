/** Moving the URLs that the git server reports to the public base URL of the portal. */
module BaseUrl {
  import opened Text

  /** The white space of Go's strings package. */
  predicate IsSpace(c: char) {
    '\t' <= c <= '\r' || c == ' ' || c == '\U{0085}' || c == '\U{00A0}' || c == '\U{1680}'
    || '\U{2000}' <= c <= '\U{200A}' || c == '\U{2028}' || c == '\U{2029}' || c == '\U{202F}' || c == '\U{205F}' ||
      c == '\U{3000}'
  }

  /** The same characters by their numbers. */
  lemma SpacesByNumber(c: char)
    ensures IsSpace(c) <==>
      || 9 <= c as int <= 13 || c as int in {32, 133, 160, 5760, 8232, 8233, 8239, 8287, 12288}
      || 8192 <= c as int <= 8202
  {
  }

  predicate IsBlank(s: string) {
    forall i :: 0 <= i < |s| ==> IsSpace(s[i])
  }

  function TrimSpaceLeft(s: string): string {
    if s != "" && IsSpace(s[0]) then TrimSpaceLeft(s[1..]) else s
  }

  function TrimSpaceRight(s: string): string {
    if s != "" && IsSpace(s[|s| - 1]) then TrimSpaceRight(s[..|s| - 1]) else s
  }

  function TrimSpace(s: string): string {
    TrimSpaceRight(TrimSpaceLeft(s))
  }

  /** The position of the first occurrence of `sub`, or -1. */
  function Index(s: string, sub: string): (i: int)
    ensures i == -1 || (0 <= i && i + |sub| <= |s| && s[i..i + |sub|] == sub)
  {
    if HasPrefix(s, sub) then 0
    else if s == "" then -1
    else
      var i := Index(s[1..], sub);
      if i == -1 then -1 else i + 1
  }

  // The specification

  function Scheme(base: string): string {
    if HasPrefix(TrimSpace(base), "http://") then "http" else "https"
  }

  /** What the base names after its scheme, without trailing slashes. */
  function Target(base: string): string {
    var t := TrimSpace(base);
    TrimRight(if HasPrefix(t, "http://") then t[7..] else TrimPrefix(t, "https://"), '/')
  }

  predicate IsAbsolute(url: string) {
    HasPrefix(url, "http://") || HasPrefix(url, "https://")
  }

  /** The text after the first slash, or nothing. */
  function AfterSlash(s: string): string {
    if '/' in s then s[IndexOf(s, '/') + 1..] else ""
  }

  /** The path of a URL, without leading slash. */
  function PathOf(raw: string): string {
    var url := TrimLeft(raw, '/');
    if HasPrefix(url, "http://") then AfterSlash(url[7..])
    else if HasPrefix(url, "https://") then AfterSlash(url[8..])
    else url
  }

  function At(scheme: string, target: string, path: string): string {
    scheme + "://" + target + if path == "" then "" else "/" + path
  }

  lemma AtIsPrinted(scheme: string, target: string, path: string)
    ensures At(scheme, target, path) ==
      if path == "" then scheme + "://" + target else scheme + "://" + target + "/" + path
    ensures scheme + "://" + target + "/" + path == scheme + "://" + (target + "/" + path)
  {
  }

  function Rewrite(raw: string, base: string): string {
    if raw == "" || TrimSpace(base) == "" then raw else At(Scheme(base), Target(base), PathOf(raw))
  }

  // The code

  /** A URL with its scheme spelled out starts with that scheme and no other. */
  lemma SchemeIsPrefix(scheme: string, rest: string)
    requires scheme == "http" || scheme == "https"
    ensures var url := scheme + "://" + rest;
      && url[0] == 'h'
      && (HasPrefix(url, "http://") <==> scheme == "http") && (HasPrefix(url, "https://") <==> scheme == "https")
      && url[|scheme| + 3..] == rest
  {
    var url := scheme + "://" + rest;
    assert url[4] == if scheme == "http" then ':' else 's';
    assert HasPrefix(url, "http://") ==> url[4] == url[..7][4] == ':';
    assert url[..|scheme| + 3] == scheme + "://";
  }

  lemma SchemeEndsFirst(scheme: string, rest: string)
    requires scheme == "http" || scheme == "https"
    ensures Index(scheme + "://" + rest, "://") == |scheme|
  {
    assert scheme + "://" + rest == scheme + ("://" + rest);
    assert ("://" + rest)[..3] == "://";
    IndexSkips(scheme, "://" + rest, "://");
  }

  lemma {:induction false} IndexSkips(head: string, tail: string, sub: string)
    requires sub != "" && sub[0] !in head && HasPrefix(tail, sub)
    ensures Index(head + tail, sub) == |head|
  {
    var s := head + tail;
    if head == "" {
      assert s == tail;
    } else {
      PrefixStartsAlike(s, sub);
      assert s[0] == head[0];
      assert s[1..] == head[1..] + tail;
      IndexSkips(head[1..], tail, sub);
    }
  }

  lemma PrefixStartsAlike(s: string, prefix: string)
    requires prefix != ""
    ensures HasPrefix(s, prefix) ==> s[0] == prefix[0]
  {
  }

  lemma {:induction false} IndexOfSlash(s: string)
    ensures Index(s, "/") == if '/' in s then IndexOf(s, '/') else -1
  {
    if s != "" {
      IndexOfSlash(s[1..]);
      assert s[..1] == [s[0]];
      assert s == [s[0]] + s[1..];
    }
  }

  /** What the code leaves of a URL without leading slashes. */
  function Remainder(url: string): string {
    if !IsAbsolute(url) then url
    else
      var idx := Index(url, "://");
      if idx < 0 then url
      else
        var slash := Index(url[idx + 3..], "/");
        if slash >= 0 then url[idx + 3 + slash + 1..] else ""
  }

  lemma RemainderAfter(scheme: string, rest: string)
    requires scheme == "http" || scheme == "https"
    ensures Remainder(scheme + "://" + rest) == AfterSlash(rest)
  {
    hide Index, IndexOf, HasPrefix;
    var url := scheme + "://" + rest;
    SchemeIsPrefix(scheme, rest);
    SchemeEndsFirst(scheme, rest);
    IndexOfSlash(rest);
    assert '/' in rest ==> rest[IndexOf(rest, '/') + 1..] == url[|scheme| + 3..][IndexOf(rest, '/') + 1..];
  }

  lemma AbsoluteSplits(url: string)
    ensures HasPrefix(url, "http://") ==> url == "http" + "://" + url[7..]
    ensures HasPrefix(url, "https://") ==> url == "https" + "://" + url[8..]
  {
  }

  /** Looking for "://" and for the next slash finds the path. */
  lemma RemainderIsPath(raw: string)
    ensures Remainder(TrimLeft(raw, '/')) == PathOf(raw)
  {
    var url := TrimLeft(raw, '/');
    AbsoluteSplits(url);
    assert HasPrefix(url, "http://") ==> |url| >= 7;
    assert HasPrefix(url, "https://") ==> |url| >= 8;
    hide Index, AfterSlash, TrimLeft, HasPrefix;
    if HasPrefix(url, "http://") {
      RemainderAfter("http", url[7..]);
    } else if HasPrefix(url, "https://") {
      RemainderAfter("https", url[8..]);
    }
  }

  /** The middle part of the rewriting: leading slashes, scheme and host go. */
  method StripHost(raw: string) returns (trimmed: string)
    ensures trimmed == PathOf(raw)
  {
    trimmed := TrimLeft(raw, '/');
    RemainderIsPath(raw);
    hide PathOf, TrimLeft, Index, HasPrefix;
    if HasPrefix(trimmed, "http://") || HasPrefix(trimmed, "https://") {
      var idx := Index(trimmed, "://");
      if idx >= 0 {
        var slash := Index(trimmed[idx + 3..], "/");
        if slash >= 0 {
          trimmed := trimmed[idx + 3 + slash + 1..];
        } else {
          trimmed := "";
        }
      }
    }
  }

  method RewriteToBaseUrl(raw: string, base: string) returns (url: string)
    ensures url == Rewrite(raw, base)
    ensures raw == "" || IsBlank(base) ==> url == raw
  {
    BlankTrimsAway(base);
    hide TrimSpace, TrimRight, TrimLeft, Index, HasPrefix;
    if raw == "" {
      return raw;
    }
    var target := TrimSpace(base);
    if target == "" {
      return raw;
    }
    var scheme := "https";
    if HasPrefix(target, "http://") {
      scheme := "http";
      target := TrimPrefix(target, "http://");
    } else if HasPrefix(target, "https://") {
      scheme := "https";
      target := TrimPrefix(target, "https://");
    }
    target := TrimRight(target, '/');
    assert scheme == Scheme(base) && target == Target(base);
    hide Scheme, Target;

    var trimmed := StripHost(raw);
    hide PathOf;
    AtIsPrinted(scheme, target, trimmed);
    hide At;
    if trimmed == "" {
      return scheme + "://" + target;
    }
    url := scheme + "://" + target + "/" + trimmed;
  }

  // What it means for a base and a URL to be written out

  lemma {:induction false} TrimSpaceLeftSkips(blank: string, s: string)
    requires IsBlank(blank) && s != "" && !IsSpace(s[0])
    ensures TrimSpaceLeft(blank + s) == s
  {
    if blank == "" {
      assert blank + s == s;
    } else {
      assert (blank + s)[1..] == blank[1..] + s;
      TrimSpaceLeftSkips(blank[1..], s);
    }
  }

  lemma {:induction false} TrimSpaceRightSkips(s: string, blank: string)
    requires IsBlank(blank) && s != "" && !IsSpace(s[|s| - 1])
    ensures TrimSpaceRight(s + blank) == s
  {
    if blank == "" {
      assert s + blank == s;
    } else {
      assert (s + blank)[..|s + blank| - 1] == s + blank[..|blank| - 1];
      TrimSpaceRightSkips(s, blank[..|blank| - 1]);
    }
  }

  lemma {:induction false} BlankTrimsAway(s: string)
    ensures TrimSpace(s) == "" <==> IsBlank(s)
  {
    if s != "" && IsSpace(s[0]) {
      BlankTrimsAway(s[1..]);
      assert s == [s[0]] + s[1..];
    } else if s != "" {
      TrimSpaceRightKeepsFirst(s);
    }
  }

  lemma {:induction false} TrimSpaceRightKeepsFirst(s: string)
    requires s != "" && !IsSpace(s[0])
    ensures TrimSpaceRight(s) != ""
  {
    if |s| > 1 && IsSpace(s[|s| - 1]) {
      TrimSpaceRightKeepsFirst(s[..|s| - 1]);
    }
  }

  lemma TrimSpaceSkips(left: string, s: string, right: string)
    requires IsBlank(left) && IsBlank(right) && s != "" && !IsSpace(s[0]) && !IsSpace(s[|s| - 1])
    ensures TrimSpace(left + s + right) == s
  {
    assert left + s + right == left + (s + right);
    TrimSpaceLeftSkips(left, s + right);
    TrimSpaceRightSkips(s, right);
  }

  /**
   * A base that spells out its scheme is taken apart into the scheme and the host, whatever blanks and slashes surround
   * it.
   */
  lemma BaseIsParsed(left: string, scheme: string, host: string, slashes: nat, right: string)
    requires IsBlank(left) && IsBlank(right) && (scheme == "http" || scheme == "https")
    requires host != "" && host[|host| - 1] != '/' && !IsSpace(host[|host| - 1])
    ensures var base := left + (scheme + "://" + (host + Repeat('/', slashes))) + right;
      TrimSpace(base) != "" && Scheme(base) == scheme && Target(base) == host
  {
    var tail := host + Repeat('/', slashes);
    var s := scheme + "://" + tail;
    SchemeIsPrefix(scheme, tail);
    assert s[|s| - 1] == tail[|tail| - 1];
    assert tail[|tail| - 1] == if slashes == 0 then host[|host| - 1] else '/';
    hide TrimSpace, HasPrefix, Repeat, TrimRight;
    TrimSpaceSkips(left, s, right);
    TrimRightSkips(host, slashes, '/');
  }

  /** A base without a scheme stands for https. */
  lemma BareBaseIsParsed(left: string, host: string, slashes: nat, right: string)
    requires IsBlank(left) && IsBlank(right)
    requires host != "" && !IsSpace(host[0]) && host[|host| - 1] != '/' && !IsSpace(host[|host| - 1])
    requires !IsAbsolute(host + Repeat('/', slashes))
    ensures var base := left + (host + Repeat('/', slashes)) + right;
      TrimSpace(base) != "" && Scheme(base) == "https" && Target(base) == host
  {
    var s := host + Repeat('/', slashes);
    assert s[|s| - 1] == if slashes == 0 then host[|host| - 1] else '/';
    hide TrimSpace, HasPrefix, Repeat, TrimRight;
    TrimSpaceSkips(left, s, right);
    TrimRightSkips(host, slashes, '/');
  }

  lemma AfterFirstSlash(head: string, tail: string)
    requires '/' !in head
    ensures AfterSlash(head) == "" && AfterSlash(head + "/" + tail) == tail
  {
    var s := head + "/" + tail;
    assert s[..|head|] == head && s[|head|] == '/' && s[|head| + 1..] == tail;
    IndexOfIs(s, '/', |head|);
  }

  lemma PathAfterScheme(scheme: string, rest: string)
    requires scheme == "http" || scheme == "https"
    ensures PathOf(scheme + "://" + rest) == AfterSlash(rest)
  {
    SchemeIsPrefix(scheme, rest);
    hide HasPrefix, AfterSlash;
  }

  /** The path of an absolute URL is what follows the slash after its authority. */
  lemma PathOfAbsolute(scheme: string, authority: string, path: string)
    requires (scheme == "http" || scheme == "https") && '/' !in authority
    ensures PathOf(scheme + "://" + authority) == ""
    ensures PathOf(scheme + "://" + authority + "/" + path) == path
  {
    AfterFirstSlash(authority, path);
    PathAfterScheme(scheme, authority);
    PathAfterScheme(scheme, authority + "/" + path);
    AtIsPrinted(scheme, authority, path);
    hide PathOf, AfterSlash;
  }

  /** The path of any other URL is the URL without its leading slashes. */
  lemma PathOfRelative(slashes: nat, path: string)
    requires !IsAbsolute(path) && (path == "" || path[0] != '/')
    ensures PathOf(Repeat('/', slashes) + path) == path
  {
    TrimLeftSkips(slashes, path, '/');
  }

  // The promise

  /**
   * Rewriting puts the path of every URL behind the base and keeps it, if and only if the target of the base has no
   * slash.
   */
  lemma RewriteKeepsPathIff(raw: string, base: string)
    requires raw != "" && !IsBlank(base)
    ensures PathOf(Rewrite(raw, base)) == PathOf(raw) <==> '/' !in Target(base)
  {
    var scheme, target, path := Scheme(base), Target(base), PathOf(raw);
    BlankTrimsAway(base);
    if '/' !in target {
      PathOfAbsolute(scheme, target, path);
      AtIsPrinted(scheme, target, path);
    } else {
      RewriteLengthensPath(scheme, target, path);
    }
  }

  /** A slash in the target makes part of the target look like path. */
  lemma RewriteLengthensPath(scheme: string, target: string, path: string)
    requires (scheme == "http" || scheme == "https") && '/' in target && target[|target| - 1] != '/'
    ensures |PathOf(At(scheme, target, path))| > |path|
  {
    var k := IndexOf(target, '/');
    var more := if path == "" then "" else "/" + path;
    var head, tail := target[..k], target[k + 1..] + more;
    assert target == head + "/" + target[k + 1..];
    hide PathOf, IndexOf, AfterSlash;
    assert At(scheme, target, path) == scheme + "://" + (head + "/" + tail) by {
      assert target + more == head + "/" + tail;
      assert scheme + "://" + target + more == scheme + "://" + (target + more);
    }
    hide At;
    PathAfterScheme(scheme, head + "/" + tail);
    AfterFirstSlash(head, tail);
  }

  /** Without a URL or without a base there is nothing to rewrite; in every other case the scheme is spelled out. */
  lemma RewriteChangesNothing(raw: string, base: string)
    ensures raw == "" || IsBlank(base) ==> Rewrite(raw, base) == raw
    ensures raw != "" && !IsBlank(base) ==> IsAbsolute(Rewrite(raw, base))
  {
    BlankTrimsAway(base);
    AtIsAbsolute(Scheme(base), Target(base), PathOf(raw));
    hide TrimSpace, At, IsAbsolute, IsBlank, Target, PathOf, Scheme;
  }

  lemma AtIsAbsolute(scheme: string, target: string, path: string)
    requires scheme == "http" || scheme == "https"
    ensures IsAbsolute(At(scheme, target, path))
  {
    var rest := target + if path == "" then "" else "/" + path;
    SchemeIsPrefix(scheme, rest);
    hide HasPrefix;
    assert At(scheme, target, path) == scheme + "://" + rest;
  }

  /** A URL that has been rewritten is left alone by rewriting it again, for exactly the same inputs. */
  lemma RewriteIsIdempotentIff(raw: string, base: string)
    ensures Rewrite(Rewrite(raw, base), base) == Rewrite(raw, base)
       <==> raw == "" || IsBlank(base) || '/' !in Target(base)
  {
    BlankTrimsAway(base);
    if raw != "" && !IsBlank(base) {
      var once := Rewrite(raw, base);
      RewriteKeepsPathIff(raw, base);
      assert once != "" by {
        RewriteChangesNothing(raw, base);
      }
      if '/' in Target(base) {
        RewriteLengthensPath(Scheme(base), Target(base), PathOf(raw));
        AtIsLonger(Scheme(base), Target(base), PathOf(raw), PathOf(once));
      }
    }
    hide TrimSpace, IsBlank, Target, PathOf, Scheme, At;
  }

  lemma AtIsLonger(scheme: string, target: string, short: string, long: string)
    ensures |short| < |long| ==> At(scheme, target, short) != At(scheme, target, long)
  {
    assert |short| < |long| ==> |At(scheme, target, short)| < |At(scheme, target, long)|;
  }

  /**
   * Written out: an absolute URL of the server moves to the base with its path, and rewriting again changes nothing.
   */
  lemma ServerUrlMoves(
      left: string, scheme: string, host: string, slashes: nat, right: string, server: string, authority: string,
        path: string)
    requires IsBlank(left) && IsBlank(right) && (scheme == "http" || scheme == "https")
    requires host != "" && '/' !in host && !IsSpace(host[|host| - 1])
    requires (server == "http" || server == "https") && '/' !in authority && path != ""
    ensures var base := left + (scheme + "://" + (host + Repeat('/', slashes))) + right;
      var moved := Rewrite(server + "://" + authority + "/" + path, base);
      moved == scheme + "://" + host + "/" + path && Rewrite(moved, base) == moved
  {
    var base := left + (scheme + "://" + (host + Repeat('/', slashes))) + right;
    var raw := server + "://" + authority + "/" + path;
    BaseIsParsed(left, scheme, host, slashes, right);
    PathOfAbsolute(server, authority, path);
    RewriteIsIdempotentIff(raw, base);
    hide Target, Scheme, TrimSpace, PathOf, Repeat;
    AtIsPrinted(scheme, host, path);
  }
}
