/**
 * The three ways the pages read Django's csrftoken out of document.cookie:
 * the landing page's scan for the first `name=` pair, the pricing page's
 * split of each pair at '=', and the elite form's split of the whole header
 * at `; name=`.  The cookie header is an input; percent-decoding is not
 * modelled, so values are returned as they appear in the header.
 */
module Cookies {
  import opened Wrappers
  import opened Text

  /** `document.cookie ? document.cookie.split(';') : []`. */
  function CookiePieces(cookie: string): seq<string>
  {
    if cookie == "" then [] else SplitOn(cookie, ";")
  }

  /** A piece that, trimmed, starts with `name=`. */
  predicate Named(piece: string, name: string)
  {
    StartsWith(Trim(piece), name + "=")
  }

  /** The trimmed piece's text after `name=`. */
  function PairValue(piece: string, name: string): (v: string)
    requires Named(piece, name)
    ensures Trim(piece) == name + "=" + v
  {
    var t := Trim(piece);
    assert t == t[..|name| + 1] + t[|name| + 1..];
    t[|name| + 1..]
  }

  /** The index of the first true flag, or the number of flags. */
  function FirstTrue(flags: seq<bool>): (k: nat)
    ensures k <= |flags|
    ensures forall j :: 0 <= j < k ==> !flags[j]
    ensures k < |flags| ==> flags[k]
  {
    if |flags| == 0 then 0
    else if flags[0] then 0
    else 1 + FirstTrue(flags[1..])
  }

  /** The index of the first piece named `name`, or the number of pieces. */
  function FirstNamed(pieces: seq<string>, name: string): (k: nat)
    ensures k <= |pieces|
    ensures forall j :: 0 <= j < k ==> !Named(pieces[j], name)
    ensures k < |pieces| ==> Named(pieces[k], name)
  {
    var flags := seq(|pieces|, j requires 0 <= j < |pieces| => Named(pieces[j], name));
    assert forall j :: 0 <= j < |pieces| ==> flags[j] == Named(pieces[j], name);
    FirstTrue(flags)
  }

  /** The value of the first pair named `name`. */
  function FirstCookie(pieces: seq<string>, name: string): Option<string>
  {
    var k := FirstNamed(pieces, name);
    if k < |pieces| then Some(PairValue(pieces[k], name)) else None
  }

  /** getCookie on the landing page: the first pair named `name`, null when there is none. */
  method GetCookie(cookie: string, name: string) returns (value: Option<string>)
    ensures value.None? <==> forall k :: 0 <= k < |CookiePieces(cookie)| ==> !Named(CookiePieces(cookie)[k], name)
    ensures value == FirstCookie(CookiePieces(cookie), name)
  {
    var pieces := CookiePieces(cookie);
    var i := 0;
    while i < |pieces|
      invariant 0 <= i <= |pieces|
      invariant i <= FirstNamed(pieces, name)
    {
      var trimmed := Trim(pieces[i]);
      if StartsWith(trimmed, name + "=") {
        assert FirstNamed(pieces, name) == i;
        return Some(trimmed[|name| + 1..]);
      }
      i := i + 1;
    }
    assert FirstNamed(pieces, name) == |pieces|;
    return None;
  }

  /** For a header joined from pairs without ';', getCookie finds the first pair with that name. */
  lemma CookieOfJoinedPairs(pairs: seq<string>, name: string)
    requires |pairs| >= 1
    requires forall k, i :: 0 <= k < |pairs| && 0 <= i < |pairs[k]| ==> pairs[k][i] != ';'
    ensures FirstCookie(CookiePieces(Join(pairs, ";")), name) == FirstCookie(pairs, name)
  {
    SplitJoin(pairs, ';');
    if Join(pairs, ";") == "" {
      assert pairs == [""];
      assert !Named("", name);
    }
  }

  /** A pair's value holds no character its piece does not. */
  lemma PairValueWithin(piece: string, name: string, c: char)
    requires Named(piece, name)
    requires forall i :: 0 <= i < |piece| ==> piece[i] != c
    ensures forall i :: 0 <= i < |PairValue(piece, name)| ==> PairValue(piece, name)[i] != c
  {
    var v := PairValue(piece, name);
    TrimSpec(piece);
    var off := |piece| - |TrimStart(piece)|;
    forall i | 0 <= i < |v|
      ensures v[i] != c
    {
      assert v[i] == Trim(piece)[|name| + 1 + i];
      assert Trim(piece)[|name| + 1 + i] == piece[off + |name| + 1 + i];
    }
  }

  /** A value read from the header never contains ';'. */
  lemma CookieValueHasNoSemicolon(cookie: string, name: string)
    requires FirstCookie(CookiePieces(cookie), name).Some?
    ensures forall i :: 0 <= i < |FirstCookie(CookiePieces(cookie), name).value| ==> FirstCookie(CookiePieces(cookie), name).value[i] != ';'
  {
    var pieces := CookiePieces(cookie);
    var k := FirstNamed(pieces, name);
    SplitPiecesAvoidSeparator(cookie, ';');
    assert pieces[k] == SplitOn(cookie, ";")[k];
    PairValueWithin(pieces[k], name, ';');
  }

  /** The pricing page's test on a piece: its trimmed text before the first '=' is csrftoken. */
  predicate CsrfNamed(piece: string)
  {
    SplitOn(Trim(piece), "=")[0] == "csrftoken"
  }

  /** The text between the first and the second '=', or undefined (None) when there is no '='. */
  function CsrfPairValue(piece: string): (r: Option<string>)
    ensures r.Some? ==> forall i :: 0 <= i < |r.value| ==> r.value[i] != '='
  {
    var parts := SplitOn(Trim(piece), "=");
    SplitPiecesAvoidSeparator(Trim(piece), '=');
    if |parts| >= 2 then Some(parts[1]) else None
  }

  /** The index of the first csrftoken piece, or the number of pieces. */
  function FirstCsrf(pieces: seq<string>): (k: nat)
    ensures k <= |pieces|
    ensures forall j :: 0 <= j < k ==> !CsrfNamed(pieces[j])
    ensures k < |pieces| ==> CsrfNamed(pieces[k])
  {
    var flags := seq(|pieces|, j requires 0 <= j < |pieces| => CsrfNamed(pieces[j]));
    assert forall j :: 0 <= j < |pieces| ==> flags[j] == CsrfNamed(pieces[j]);
    FirstTrue(flags)
  }

  /** The pricing page's getCsrfToken: the first csrftoken piece's value, '' when there is none. */
  function CsrfFromCookie(cookie: string): (r: Option<string>)
    ensures r.Some? ==> forall i :: 0 <= i < |r.value| ==> r.value[i] != '='
  {
    var pieces := SplitOn(cookie, ";");
    var k := FirstCsrf(pieces);
    if k < |pieces| then CsrfPairValue(pieces[k]) else Some("")
  }

  /** getCsrfToken on the pricing page. */
  method PricingCsrfToken(cookie: string) returns (token: Option<string>)
    ensures token == CsrfFromCookie(cookie)
  {
    var pieces := SplitOn(cookie, ";");
    var i := 0;
    while i < |pieces|
      invariant 0 <= i <= |pieces|
      invariant forall j :: 0 <= j < i ==> !CsrfNamed(pieces[j])
    {
      var parts := SplitOn(Trim(pieces[i]), "=");
      if parts[0] == "csrftoken" {
        assert FirstCsrf(pieces) == i;
        return if |parts| >= 2 then Some(parts[1]) else None;
      }
      i := i + 1;
    }
    assert FirstCsrf(pieces) == |pieces|;
    return Some("");
  }

  /** The pair `csrftoken=a=b` holds no ';' and, with b ending in a non-space, is already trimmed. */
  lemma CsrfPairShape(a: string, b: string)
    requires forall i :: 0 <= i < |a| ==> a[i] != '=' && a[i] != ';'
    requires forall i :: 0 <= i < |b| ==> b[i] != ';'
    requires |b| > 0 && !IsSpace(b[|b| - 1])
    ensures var s := "csrftoken=" + a + "=" + b;
      SplitOn(s, ";") == [s] && Trim(s) == s
  {
    var s := "csrftoken=" + a + "=" + b;
    forall i | 0 <= i < |s|
      ensures s[i] != ';'
    {
      if i < 10 {
        assert s[i] == "csrftoken="[i];
      } else if i < 10 + |a| {
        assert s[i] == a[i - 10];
      } else if i > 10 + |a| {
        assert s[i] == b[i - 11 - |a|];
      }
    }
    NoSeparatorOneChar(s, ';');
    assert IsTrimmed(s) by {
      assert s[0] == 'c' && s[|s| - 1] == b[|b| - 1];
    }
    TrimOfTrimmed(s);
  }

  /** Split at '=', `csrftoken=a=b` gives csrftoken, a, and then the pieces of b. */
  lemma CsrfPairPieces(a: string, b: string)
    requires forall i :: 0 <= i < |a| ==> a[i] != '='
    ensures SplitOn("csrftoken=" + a + "=" + b, "=") == ["csrftoken", a] + SplitOn(b, "=")
  {
    var tail := a + "=" + b;
    assert "csrftoken=" + a + "=" + b == "csrftoken" + "=" + tail;
    assert forall i :: 0 <= i < |"csrftoken"| ==> "csrftoken"[i] != '=';
    SplitAfterPiece("csrftoken", "=", tail);
    SplitAfterPiece(a, "=", b);
  }

  /**
   * A pair whose value itself holds '=' is cut at it: `csrftoken=a=b` reads
   * as `a`.
   */
  lemma CsrfValueCutAtEquals(a: string, b: string)
    requires forall i :: 0 <= i < |a| ==> a[i] != '=' && a[i] != ';'
    requires forall i :: 0 <= i < |b| ==> b[i] != ';'
    requires |b| > 0 && !IsSpace(b[|b| - 1])
    ensures CsrfFromCookie("csrftoken=" + a + "=" + b) == Some(a)
  {
    var s := "csrftoken=" + a + "=" + b;
    CsrfPairShape(a, b);
    CsrfPairPieces(a, b);
    var parts := SplitOn(Trim(s), "=");
    assert parts[0] == "csrftoken" && parts[1] == a;
    assert CsrfNamed(s);
    assert CsrfPairValue(s) == Some(a);
    assert FirstCsrf([s]) == 0;
  }

  /**
   * The elite form's getCookie: the header, prefixed with '; ', split at
   * `; name=`; exactly two pieces give the second piece up to its first ';',
   * anything else gives ''.
   */
  function EliteCookie(cookie: string, name: string): (r: string)
    ensures forall i :: 0 <= i < |r| ==> r[i] != ';'
    ensures !Contains("; " + cookie, "; " + name + "=") ==> r == ""
    ensures |SplitOn("; " + cookie, "; " + name + "=")| > 2 ==> r == ""
  {
    var parts := SplitOn("; " + cookie, "; " + name + "=");
    if !Contains("; " + cookie, "; " + name + "=") then
      SplitWithoutSeparator("; " + cookie, "; " + name + "=");
      assert |parts| == 1;
      ""
    else if |parts| == 2 then
      SplitPiecesAvoidSeparator(parts[1], ';');
      SplitOn(parts[1], ";")[0]
    else ""
  }

  /** A header holding just `name=value` gives value back. */
  lemma EliteCookieOfSingle(name: string, v: string)
    requires forall i :: 0 <= i < |v| ==> v[i] != ';'
    ensures EliteCookie(name + "=" + v, name) == v
  {
    var sep := "; " + name + "=";
    var s := "; " + (name + "=" + v);
    assert s == sep + v;
    assert s[..|sep|] == sep && s[|sep|..] == v;
    assert !Contains(v, sep) by {
      forall i | 0 <= i <= |v|
        ensures !OccursAt(v, sep, i)
      {
        if i <= |v| - |sep| {
          assert v[i..i + |sep|][0] == v[i];
        }
      }
    }
    SplitWithoutSeparator(v, sep);
    assert OccursAt(s, sep, 0);
    assert SplitOn(s, sep) == [""] + SplitOn(v, sep) == ["", v];
    NoSeparatorOneChar(v, ';');
  }

  /** A header naming the cookie twice gives '': neither value is trusted. */
  lemma EliteCookieOfDuplicate(name: string, v: string, w: string)
    requires forall i :: 0 <= i < |v| ==> v[i] != ';'
    ensures EliteCookie(name + "=" + v + "; " + name + "=" + w, name) == ""
  {
    var sep := "; " + name + "=";
    var s := "; " + (name + "=" + v + "; " + name + "=" + w);
    assert s == "" + sep + (v + sep + w);
    SplitAfterPiece("", sep, v + sep + w);
    SplitAfterPiece(v, sep, w);
    assert |SplitOn(s, sep)| > 2;
  }
}
