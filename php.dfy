/** The parts of PHP's runtime semantics that the two classes rely on:
    null versus "set" values, the `(boolean)` cast, `strtolower`, `trim`,
    and the "first alias that is set wins" reading of an option array. */
module Php {

  datatype Option<T> = None | Some(value: T) {
    function GetOr(default: T): T {
      match this
      case Some(v) => v
      case None => default
    }
  }

  /** A PHP value as far as the classes inspect it (floats as reals). */
  datatype Value =
    | VNull
    | VBool(b: bool)
    | VInt(i: int)
    | VFloat(f: real)
    | VString(s: string)
    | VArray(elems: seq<Value>)
    | VObject(id: nat)

  /** A value that `isset` accepts. */
  type SetValue = v: Value | !v.VNull? witness VBool(false)

  /** PHP's `(boolean)` cast. */
  function Truthy(v: Value): (r: bool)
    ensures v.VNull? ==> !r
    ensures v.VObject? ==> r
    ensures v.VBool? ==> r == v.b
    ensures v.VInt? ==> (r <==> v.i != 0)
    ensures v.VFloat? ==> (r <==> v.f != 0.0)
    ensures v.VArray? ==> (r <==> |v.elems| > 0)
    ensures v.VString? ==> (r <==> v.s != "" && v.s != "0")
  {
    match v
    case VNull => false
    case VBool(b) => b
    case VInt(i) => i != 0
    case VFloat(f) => f != 0.0
    case VString(s) => s != "" && s != "0"
    case VArray(elems) => |elems| > 0
    case VObject(_) => true
  }

  // ---------------------------------------------------------------------
  // Alias resolution: `if (isset($a[k1])) .. else if (isset($a[k2])) ..`
  // ---------------------------------------------------------------------

  /** The first candidate that is set, or None when none is. */
  function FirstSome<T>(cands: seq<Option<T>>): (r: Option<T>)
    ensures r.None? <==> forall i :: 0 <= i < |cands| ==> cands[i].None?
    ensures r.Some? ==> exists i :: 0 <= i < |cands| && cands[i] == r &&
                                    forall j :: 0 <= j < i ==> cands[j].None?
  {
    if |cands| == 0 then None
    else if cands[0].Some? then cands[0]
    else
      var r := FirstSome(cands[1..]);
      assert forall i :: 1 <= i < |cands| ==> cands[i] == cands[1..][i - 1];
      r
  }

  /** The first candidate decides, whatever follows it. */
  lemma {:induction false} FirstSomeHead<T>(cands: seq<Option<T>>, i: nat)
    requires i < |cands| && cands[i].Some?
    requires forall j :: 0 <= j < i ==> cands[j].None?
    ensures FirstSome(cands) == cands[i]
  {
    if i > 0 {
      FirstSomeHead(cands[1..], i - 1);
    }
  }

  // ---------------------------------------------------------------------
  // strtolower (ASCII, as PHP does in the "C" locale)
  // ---------------------------------------------------------------------

  predicate IsUpper(c: char) { 'A' <= c <= 'Z' }

  function LowerChar(c: char): (r: char)
    ensures !IsUpper(r)
    ensures !IsUpper(c) ==> r == c
    ensures IsUpper(c) ==> 'a' <= r <= 'z' && r as int - 'a' as int == c as int - 'A' as int
  {
    if IsUpper(c) then (c as int + 32) as char else c
  }

  function ToLower(s: string): (r: string)
    ensures |r| == |s|
    ensures forall i :: 0 <= i < |s| ==> r[i] == LowerChar(s[i])
  {
    if |s| == 0 then [] else [LowerChar(s[0])] + ToLower(s[1..])
  }

  /** Lowercasing a string with no upper-case letters leaves it unchanged;
      in particular `strtolower` is idempotent. */
  lemma {:induction false} ToLowerFixes(s: string)
    requires forall i :: 0 <= i < |s| ==> !IsUpper(s[i])
    ensures ToLower(s) == s
  {
    if |s| > 0 {
      ToLowerFixes(s[1..]);
    }
  }

  // ---------------------------------------------------------------------
  // trim: strips " ", "\t", "\n", "\r", "\0" and "\x0B" from both ends
  // ---------------------------------------------------------------------

  predicate IsTrimChar(c: char) {
    c == ' ' || c == '\t' || c == '\n' || c == '\r' || c == '\0' || c == 11 as char
  }

  function TrimLeft(s: string): (r: string)
    ensures |r| <= |s|
    ensures r == [] || !IsTrimChar(r[0])
  {
    if |s| > 0 && IsTrimChar(s[0]) then TrimLeft(s[1..]) else s
  }

  /** `TrimLeft` keeps a suffix and drops only whitespace. */
  lemma {:induction false} TrimLeftDrops(s: string)
    ensures TrimLeft(s) == s[|s| - |TrimLeft(s)|..]
    ensures forall i :: 0 <= i < |s| - |TrimLeft(s)| ==> IsTrimChar(s[i])
  {
    if |s| > 0 && IsTrimChar(s[0]) {
      TrimLeftDrops(s[1..]);
      assert s[1..][|s| - 1 - |TrimLeft(s)|..] == s[|s| - |TrimLeft(s)|..];
    }
  }

  function TrimRight(s: string): (r: string)
    ensures |r| <= |s|
    ensures r == [] || !IsTrimChar(r[|r| - 1])
  {
    if |s| > 0 && IsTrimChar(s[|s| - 1]) then TrimRight(s[..|s| - 1]) else s
  }

  /** `TrimRight` keeps a prefix and drops only whitespace. */
  lemma {:induction false} TrimRightDrops(s: string)
    ensures TrimRight(s) == s[..|TrimRight(s)|]
    ensures forall i :: |TrimRight(s)| <= i < |s| ==> IsTrimChar(s[i])
  {
    if |s| > 0 && IsTrimChar(s[|s| - 1]) {
      TrimRightDrops(s[..|s| - 1]);
      assert s[..|s| - 1][..|TrimRight(s)|] == s[..|TrimRight(s)|];
    }
  }

  /** `r` is the slice of `s` at offset `k`, and only whitespace lies
      outside it. */
  predicate CutAt(s: string, r: string, k: int) {
    0 <= k <= |s| - |r| && r == s[k..k + |r|] &&
    (forall i :: 0 <= i < k ==> IsTrimChar(s[i])) &&
    (forall i :: k + |r| <= i < |s| ==> IsTrimChar(s[i]))
  }

  /** `trim` */
  function Trim(s: string): string {
    TrimRight(TrimLeft(s))
  }

  /** Whitespace stripped from the front of `s` to give `l`, then from
      the back of `l` to give `r`, leaves `r` cut out of `s`. */
  lemma CutOfParts(s: string, l: string, r: string)
    requires |l| <= |s| && l == s[|s| - |l|..]
    requires forall i :: 0 <= i < |s| - |l| ==> IsTrimChar(s[i])
    requires |r| <= |l| && r == l[..|r|]
    requires forall i :: |r| <= i < |l| ==> IsTrimChar(l[i])
    ensures CutAt(s, r, |s| - |l|)
  {
    var k := |s| - |l|;
    assert r == s[k..k + |r|];
    forall i | k + |r| <= i < |s|
      ensures IsTrimChar(s[i])
    {
      assert s[i] == l[i - k];
    }
  }

  /** The slice `trim` keeps starts where `TrimLeft` stopped. */
  lemma TrimSlice(s: string)
    ensures CutAt(s, Trim(s), |s| - |TrimLeft(s)|)
  {
    var l := TrimLeft(s);
    TrimLeftDrops(s);
    TrimRightDrops(l);
    CutOfParts(s, l, TrimRight(l));
  }

  /** `trim` gives a slice of its input that neither starts nor ends with
      whitespace, everything cut off on either side being whitespace. */
  lemma TrimCuts(s: string)
    ensures exists k :: CutAt(s, Trim(s), k)
    ensures Trim(s) == [] || (!IsTrimChar(Trim(s)[0]) && !IsTrimChar(Trim(s)[|Trim(s)| - 1]))
  {
    TrimSlice(s);
    var l := TrimLeft(s);
    TrimRightDrops(l);
    assert Trim(s) == [] || Trim(s)[0] == l[0];
  }

  /** A string that neither starts nor ends with whitespace is its own trim. */
  lemma TrimFixes(s: string)
    requires s == [] || (!IsTrimChar(s[0]) && !IsTrimChar(s[|s| - 1]))
    ensures Trim(s) == s
  {
  }
}
