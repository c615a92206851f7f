/**
 * The JavaScript values the pipeline passes around: what `JSON.parse` yields,
 * property access on such a value, the `String.prototype.trim` built-in and
 * the rendering of a possibly-undefined string inside a template literal.
 */
module JsValues {
  import opened Wrappers

  /** A value produced by `JSON.parse`; an object keeps its members in source order. */
  datatype Json =
    | JNull
    | JBool(b: bool)
    | JNumber(n: real)
    | JString(s: string)
    | JArray(items: seq<Json>)
    | JObject(members: seq<(string, Json)>)

  /**
   * The value bound to `key` among `members`. A repeated key in a JSON text is
   * bound to its last occurrence, so the search runs from the end.
   */
  function LookupMember(members: seq<(string, Json)>, key: string): (r: Option<Json>)
    ensures r.None? <==> forall j :: 0 <= j < |members| ==> members[j].0 != key
    ensures r.Some? ==> exists j :: 0 <= j < |members| && members[j] == (key, r.value)
                                    && forall j' :: j < j' < |members| ==> members[j'].0 != key
  {
    if members == [] then None
    else if members[|members| - 1].0 == key then Some(members[|members| - 1].1)
    else LookupMember(members[..|members| - 1], key)
  }

  /**
   * `v.key` for a value that is not null (reading a property of `null` throws).
   * Only an object has named properties; on any other value the result is `undefined`.
   */
  function Property(v: Json, key: string): (r: Option<Json>)
    requires v != JNull
    ensures r.Some? ==> v.JObject?
  {
    if v.JObject? then LookupMember(v.members, key) else None
  }

  /** `${v}` in a template literal: an undefined value is rendered as the text "undefined". */
  function Render(v: Option<string>): (r: string)
    ensures v.Some? ==> r == v.value
  {
    match v
    case Some(s) => s
    case None => "undefined"
  }

  /** A string is truthy in JavaScript exactly when it is not empty. */
  predicate Truthy(v: Option<string>) {
    v.Some? && v.value != ""
  }

  /** The characters `trim` removes: ECMAScript WhiteSpace and LineTerminator code points. */
  predicate IsJsWhitespace(c: char) {
    var n := c as int;
    n == 0x09 || n == 0x0A || n == 0x0B || n == 0x0C || n == 0x0D || n == 0x20
    || n == 0xA0 || n == 0x1680 || (0x2000 <= n <= 0x200A) || n == 0x2028 || n == 0x2029
    || n == 0x202F || n == 0x205F || n == 0x3000 || n == 0xFEFF
  }

  /** `s` without its leading whitespace. */
  function TrimStart(s: string): (r: string)
    ensures |r| <= |s| && r == s[|s| - |r|..]
    ensures forall j :: 0 <= j < |s| - |r| ==> IsJsWhitespace(s[j])
    ensures r != [] ==> !IsJsWhitespace(r[0])
  {
    if s != [] && IsJsWhitespace(s[0]) then TrimStart(s[1..]) else s
  }

  /** `s` without its trailing whitespace. */
  function TrimEnd(s: string): (r: string)
    ensures |r| <= |s| && r == s[..|r|]
    ensures forall j :: |r| <= j < |s| ==> IsJsWhitespace(s[j])
    ensures r != [] ==> !IsJsWhitespace(r[|r| - 1])
  {
    if s != [] && IsJsWhitespace(s[|s| - 1]) then TrimEnd(s[..|s| - 1]) else s
  }

  /** `s.trim()`: the whitespace at both ends removed, nothing in between touched. */
  function Trim(s: string): (r: string)
    ensures r == [] || (!IsJsWhitespace(r[0]) && !IsJsWhitespace(r[|r| - 1]))
  {
    TrimEnd(TrimStart(s))
  }

  /** Trimming keeps a contiguous run of `s` and drops only whitespace around it. */
  lemma TrimIsInnerSlice(s: string)
    ensures var a := |s| - |TrimStart(s)|;
            a + |Trim(s)| <= |s| && Trim(s) == s[a..a + |Trim(s)|]
            && (forall j :: 0 <= j < a ==> IsJsWhitespace(s[j]))
            && (forall j :: a + |Trim(s)| <= j < |s| ==> IsJsWhitespace(s[j]))
  {
    var t := TrimStart(s);
    var a := |s| - |t|;
    var r := TrimEnd(t);
    assert t == s[a..];
    assert r == t[..|r|];
    forall j | a + |r| <= j < |s| ensures IsJsWhitespace(s[j]) {
      assert s[j] == t[j - a];
    }
  }

  /** Whitespace in front of a string does not change what `trim` returns. */
  lemma {:induction false} TrimSkipsLeadingWhitespace(w: string, s: string)
    requires forall j :: 0 <= j < |w| ==> IsJsWhitespace(w[j])
    ensures Trim(w + s) == Trim(s)
  {
    if w == [] {
      assert w + s == s;
    } else {
      assert (w + s)[0] == w[0] && (w + s)[1..] == w[1..] + s;
      assert TrimStart(w + s) == TrimStart(w[1..] + s);
      TrimSkipsLeadingWhitespace(w[1..], s);
    }
  }

  /** Trimming twice is the same as trimming once. */
  lemma TrimIdempotent(s: string)
    ensures Trim(Trim(s)) == Trim(s)
  {
    var r := Trim(s);
    if r != [] {
      assert TrimStart(r) == r;
      assert TrimEnd(r) == r;
    }
  }
}
