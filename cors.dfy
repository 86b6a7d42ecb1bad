/**
 * The CORS origin check of the web application: the allow-list is the
 * `ALLOWED_CLIENTS` setting split on "," with every entry trimmed; a request
 * without an origin is let through, an origin equal to an entry is allowed,
 * and any other origin is refused.
 */
module Cors {
  import opened Records

  const CorsError := "CORS not allowed"

  datatype Decision = Allow | Deny(error: string)

  /** The characters JavaScript's `String.prototype.trim` removes: WhiteSpace and LineTerminator. */
  predicate IsJsSpace(c: char) {
    var n := c as int;
    || n == 0x09 || n == 0x0A || n == 0x0B || n == 0x0C || n == 0x0D
    || n == 0x20 || n == 0xA0 || n == 0x1680 || (0x2000 <= n <= 0x200A)
    || n == 0x2028 || n == 0x2029 || n == 0x202F || n == 0x205F || n == 0x3000 || n == 0xFEFF
  }

  predicate AllSpace(s: string) {
    forall i :: 0 <= i < |s| ==> IsJsSpace(s[i])
  }

  /** Neither the first nor the last character is a space. */
  predicate IsTrimmed(s: string) {
    s == [] || (!IsJsSpace(s[0]) && !IsJsSpace(s[|s| - 1]))
  }

  /** `s.split(",")`: the pieces between commas, empty ones included. */
  function Split(s: string): (parts: seq<string>)
    ensures |parts| >= 1
    ensures forall i :: 0 <= i < |parts| ==> ',' !in parts[i]
  {
    if s == [] then [""]
    else
      var rest := Split(s[1..]);
      if s[0] == ',' then [""] + rest
      else [[s[0]] + rest[0]] + rest[1..]
  }

  /** `parts.join(",")`, the inverse of `Split`. */
  function Join(parts: seq<string>): string
    requires |parts| >= 1
  {
    if |parts| == 1 then parts[0] else parts[0] + "," + Join(parts[1..])
  }

  /** Joining the pieces again gives back the setting. */
  lemma {:induction false} JoinSplit(s: string)
    ensures Join(Split(s)) == s
  {
    if s != [] {
      var rest := Split(s[1..]);
      JoinSplit(s[1..]);
      if s[0] == ',' {
        assert ([""] + rest)[1..] == rest;
      } else {
        var parts := [[s[0]] + rest[0]] + rest[1..];
        if |rest| > 1 {
          assert parts[1..] == rest[1..];
          assert Join(rest) == rest[0] + "," + Join(rest[1..]);
        }
      }
    }
  }

  lemma {:induction false} SplitAfterPiece(p: string, tail: string)
    requires ',' !in p
    ensures Split(p + tail) == [p + Split(tail)[0]] + Split(tail)[1..]
  {
    if p == [] {
      var parts := Split(tail);
      assert p + tail == tail && p + parts[0] == parts[0];
      assert [parts[0]] + parts[1..] == parts;
    } else {
      var whole := p + tail;
      assert p[0] in p && whole[0] == p[0] && whole[1..] == p[1..] + tail;
      var rest := Split(whole[1..]);
      assert Split(whole) == [[p[0]] + rest[0]] + rest[1..];
      SplitAfterPiece(p[1..], tail);
      assert rest == [p[1..] + Split(tail)[0]] + Split(tail)[1..];
      assert [p[0]] + (p[1..] + Split(tail)[0]) == p + Split(tail)[0];
    }
  }

  /** Splitting a comma-joined list of comma-free pieces gives back the pieces. */
  lemma {:induction false} SplitJoin(parts: seq<string>)
    requires |parts| >= 1
    requires forall i :: 0 <= i < |parts| ==> ',' !in parts[i]
    ensures Split(Join(parts)) == parts
  {
    if |parts| == 1 {
      SplitAfterPiece(parts[0], "");
      assert parts[0] + "" == parts[0] && Split("") == [""];
      assert parts == [parts[0]];
    } else {
      var tail := Join(parts[1..]);
      SplitJoin(parts[1..]);
      assert Join(parts) == parts[0] + ("," + tail);
      SplitAfterPiece(parts[0], "," + tail);
      assert ("," + tail)[1..] == tail;
      assert Split("," + tail) == [""] + parts[1..];
      assert parts[0] + "" == parts[0];
      assert [parts[0]] + parts[1..] == parts;
    }
  }

  /** Drop leading spaces. */
  function TrimStart(s: string): (r: string)
    ensures |r| <= |s| && r == s[|s| - |r|..]
    ensures AllSpace(s[..|s| - |r|])
    ensures r == [] || !IsJsSpace(r[0])
  {
    if s != [] && IsJsSpace(s[0]) then TrimStart(s[1..]) else s
  }

  /** Drop trailing spaces. */
  function TrimEnd(s: string): (r: string)
    ensures |r| <= |s| && r == s[..|r|]
    ensures AllSpace(s[|r|..])
    ensures r == [] || !IsJsSpace(r[|r| - 1])
  {
    if s != [] && IsJsSpace(s[|s| - 1]) then TrimEnd(s[..|s| - 1]) else s
  }

  /** `s.trim()`. */
  function Trim(s: string): (r: string)
    ensures IsTrimmed(r)
  {
    TrimEnd(TrimStart(s))
  }

  lemma {:induction false} TrimStartPadding(pre: string, s: string)
    requires AllSpace(pre) && (s == [] || !IsJsSpace(s[0]))
    ensures TrimStart(pre + s) == s
  {
    if pre != [] {
      assert (pre + s)[1..] == pre[1..] + s;
      TrimStartPadding(pre[1..], s);
    }
  }

  lemma {:induction false} TrimEndPadding(s: string, post: string)
    requires AllSpace(post) && (s == [] || !IsJsSpace(s[|s| - 1]))
    ensures TrimEnd(s + post) == s
  {
    if post != [] {
      var m := |post| - 1;
      assert (s + post)[..|s + post| - 1] == s + post[..m];
      TrimEndPadding(s, post[..m]);
    }
  }

  /**
   * Trimming removes exactly the surrounding spaces: a trimmed core with
   * spaces around it trims to the core. (Every string has this shape, so
   * this pins `Trim` down.)
   */
  lemma TrimRemovesPadding(pre: string, core: string, post: string)
    requires AllSpace(pre) && AllSpace(post) && IsTrimmed(core)
    ensures Trim(pre + core + post) == core
  {
    if core == [] {
      assert pre + core + post == pre + post;
      if post == [] {
        TrimStartPadding(pre, []);
        assert pre + post == pre + [];
      } else {
        TrimStartPadding(pre, []);
        TrimStartPadding(pre + post, []);
        assert AllSpace(pre + post);
      }
    } else {
      assert pre + core + post == pre + (core + post);
      TrimStartPadding(pre, core + post);
      TrimEndPadding(core, post);
    }
  }

  /** `(process.env.ALLOWED_CLIENTS || "")`. */
  function ClientsSetting(env: Option<string>): string {
    if Truthy(env) then env.value else ""
  }

  /** The allow-list: the setting split on "," and each entry trimmed. */
  function AllowedClients(env: Option<string>): (clients: seq<string>)
    ensures |clients| == |Split(ClientsSetting(env))|
    ensures forall i :: 0 <= i < |clients| ==> clients[i] == Trim(Split(ClientsSetting(env))[i])
    ensures forall i :: 0 <= i < |clients| ==> IsTrimmed(clients[i]) && ',' !in clients[i]
  {
    var parts := Split(ClientsSetting(env));
    seq(|parts|, i requires 0 <= i < |parts| => TrimCommaFree(parts[i]))
  }

  /** `Trim` of a comma-free entry, which stays comma-free. */
  function TrimCommaFree(s: string): (r: string)
    requires ',' !in s
    ensures r == Trim(s) && ',' !in r
  {
    var t := TrimStart(s);
    assert forall c :: c in t ==> c in s;
    var r := TrimEnd(t);
    assert forall c :: c in r ==> c in t;
    r
  }

  /** The origin callback: no origin (or an empty one) passes; otherwise the origin must be listed. */
  function CheckOrigin(clients: seq<string>, origin: Option<string>): (d: Decision)
    ensures d == Allow <==> !Truthy(origin) || origin.value in clients
    ensures d != Allow ==> d == Deny(CorsError)
  {
    if !Truthy(origin) then Allow
    else if origin.value in clients then Allow
    else Deny(CorsError)
  }

  /** With `ALLOWED_CLIENTS` unset or empty the list is `[""]`, and only requests without an origin pass. */
  lemma UnsetAllowsOnlyMissingOrigin(env: Option<string>, origin: Option<string>)
    requires !Truthy(env)
    ensures AllowedClients(env) == [""]
    ensures CheckOrigin(AllowedClients(env), origin) == Allow <==> !Truthy(origin)
  {
    assert Split("") == [""];
    assert Trim("") == "";
  }

  /**
   * The incoming origin is compared as it is, not trimmed: an origin with a
   * leading or trailing space, or with a comma, is never allowed.
   */
  lemma PaddedOriginDenied(env: Option<string>, origin: string)
    requires origin != []
    requires IsJsSpace(origin[0]) || IsJsSpace(origin[|origin| - 1]) || ',' in origin
    ensures CheckOrigin(AllowedClients(env), Some(origin)) == Deny(CorsError)
  {
  }

  /**
   * An origin written in the setting as one comma-separated entry, with
   * spaces around it, is allowed.
   */
  lemma ListedOriginAllowed(entries: seq<string>, k: nat, pre: string, origin: string, post: string)
    requires k < |entries|
    requires forall i :: 0 <= i < |entries| ==> ',' !in entries[i]
    requires entries[k] == pre + origin + post
    requires AllSpace(pre) && AllSpace(post) && IsTrimmed(origin)
    requires Join(entries) != ""
    ensures CheckOrigin(AllowedClients(Some(Join(entries))), Some(origin)) == Allow
  {
    SplitJoin(entries);
    TrimRemovesPadding(pre, origin, post);
    assert AllowedClients(Some(Join(entries)))[k] == origin;
  }
}
