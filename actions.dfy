/**
 * The action value type of jedux: an immutable pair of a type tag, drawn from an
 * application-defined enumeration, and an optional payload. Both parts are fixed
 * when the action is constructed, which a datatype gives for free.
 */
module Actions {
  import opened Options

  /**
   * `kind` is the Java field `type` (a keyword here); `value` is `None` where Java
   * holds `null`. The datatype constructor `Action(kind, value)` is the
   * two-argument Java constructor.
   */
  datatype Action<T, V> = Action(kind: T, value: Option<V>)

  /** The one-argument constructor: the two-argument one with the value absent. */
  function Plain<T, V>(kind: T): (a: Action<T, V>)
    ensures a.kind == kind
    ensures a.value == None
  {
    Action(kind, None)
  }

  /**
   * Text of an action. The text of the tag and of the payload come from their own
   * `toString`, which the model takes as the parameters `showType` and `showValue`.
   */
  function ToString<T, V>(a: Action<T, V>, showType: T -> string, showValue: V -> string): (s: string)
    ensures showType(a.kind) <= s
    ensures |s| == |showType(a.kind)| + (if a.value.Some? then 2 + |showValue(a.value.value)| else 0)
  {
    if a.value.Some? then showType(a.kind) + ": " + showValue(a.value.value) else showType(a.kind)
  }

  /** Index of the first ':' of `s`, or `|s|` when it has none. */
  function ColonIndex(s: string): (i: nat)
    ensures i <= |s|
    ensures i < |s| ==> s[i] == ':'
    ensures forall j :: 0 <= j < i ==> s[j] != ':'
  {
    if s == [] then 0 else if s[0] == ':' then 0 else 1 + ColonIndex(s[1..])
  }

  /**
   * Reads the text of an action back into the tag text and, when the text has
   * the separator ": ", the value text after it.
   */
  function ReadBack(s: string): (parts: (string, Option<string>))
    ensures parts.1.None? ==> parts.0 == s
    ensures parts.1.Some? ==> s == parts.0 + ": " + parts.1.value && ':' !in parts.0
  {
    var i := ColonIndex(s);
    if i + 1 < |s| && s[i + 1] == ' ' then
      assert s == s[..i] + ": " + s[i + 2..];
      (s[..i], Some(s[i + 2..]))
    else
      (s, None)
  }

  lemma {:induction false} ColonIndexAfter(t: string, u: string)
    requires ':' !in t
    ensures ColonIndex(t + u) == |t| + ColonIndex(u)
  {
    if t != [] {
      assert (t + u)[1..] == t[1..] + u;
      ColonIndexAfter(t[1..], u);
    } else {
      assert t + u == u;
    }
  }

  /**
   * The text of an action determines its tag text and its value text, provided the
   * tag text has no ':', which holds when the enum keeps the default `toString`,
   * which returns the constant's name.
   */
  lemma ReadBackToString<T, V>(a: Action<T, V>, showType: T -> string, showValue: V -> string)
    requires ':' !in showType(a.kind)
    ensures ReadBack(ToString(a, showType, showValue))
         == (showType(a.kind), if a.value.Some? then Some(showValue(a.value.value)) else None)
  {
    var t := showType(a.kind);
    if a.value.Some? {
      var v := showValue(a.value.value);
      assert t + ": " + v == t + (": " + v);
      ColonIndexAfter(t, ": " + v);
      assert (t + ": " + v)[..|t|] == t;
      assert (t + ": " + v)[|t| + 2..] == v;
    } else {
      ColonIndexAfter(t, "");
      assert t + "" == t;
    }
  }
}
