/** The handful of JUCE library behaviours the plugin depends on, modelled on values:
    juce::Array<float> reads and writes, juce::String(int) and endsWithIgnoreCase,
    and the XmlElement / ValueTree documents that the plugin stores its data in. */
module Juce {

  datatype Option<T> = None | Some(value: T)

  // ---------------------------------------------------------------------------
  // juce::Array<float>

  /** Array::operator[]: an index outside the array reads a default-constructed 0. */
  function ArrayGet(a: seq<real>, i: int): real
  {
    if 0 <= i < |a| then a[i] else 0.0
  }

  /** Array::set: a negative index is ignored, an index inside the array overwrites that
      element, and any index at or past the end appends the value at the end. */
  function ArraySet(a: seq<real>, i: int, v: real): (r: seq<real>)
    ensures i < 0 ==> r == a
    ensures 0 <= i < |a| ==>
              |r| == |a| && r[i] == v && forall k :: 0 <= k < |a| && k != i ==> r[k] == a[k]
    ensures |a| <= i ==> r == a + [v]
  {
    if i < 0 then a else if i < |a| then a[i := v] else a + [v]
  }

  function Zeros(n: nat): (r: seq<real>)
    ensures |r| == n && forall k :: 0 <= k < n ==> r[k] == 0.0
  {
    if n == 0 then [] else Zeros(n - 1) + [0.0]
  }

  /** Array::resize: shrinks by dropping the tail, grows with default-constructed zeros. */
  function Resize(a: seq<real>, n: nat): (r: seq<real>)
    ensures |r| == n
    ensures forall k :: 0 <= k < n ==> r[k] == ArrayGet(a, k)
  {
    if n <= |a| then a[..n] else a + Zeros(n - |a|)
  }

  function Max(a: int, b: int): int
  {
    if a < b then b else a
  }

  // ---------------------------------------------------------------------------
  // juce::String

  /** The decimal digit `d` as a character. */
  function DigitChar(d: nat): char
    requires d < 10
  {
    ('0' as int + d) as char
  }

  /** juce::String(int) for a non-negative value: its decimal digits, most significant first. */
  function DecimalString(n: nat): (s: string)
    ensures 0 < |s| && (|s| == 1 <==> n < 10)
    ensures forall k :: 0 <= k < |s| ==> '0' <= s[k] <= '9'
  {
    if n < 10 then [DigitChar(n)] else DecimalString(n / 10) + [DigitChar(n % 10)]
  }

  lemma {:induction false} DecimalStringInjective(m: nat, n: nat)
    requires DecimalString(m) == DecimalString(n)
    ensures m == n
    decreases m
  {
    if m >= 10 && n >= 10 {
      var sm, sn := DecimalString(m), DecimalString(n);
      assert sm[..|sm| - 1] == DecimalString(m / 10);
      assert sn[..|sn| - 1] == DecimalString(n / 10);
      DecimalStringInjective(m / 10, n / 10);
      assert DigitChar(m % 10) == sm[|sm| - 1] == sn[|sn| - 1] == DigitChar(n % 10);
      assert m == 10 * (m / 10) + m % 10 && n == 10 * (n / 10) + n % 10;
    } else if m < 10 && n < 10 {
      assert DigitChar(m) == DecimalString(m)[0] == DecimalString(n)[0] == DigitChar(n);
    }
  }

  /** Case folding of CharacterFunctions::toLowerCase, restricted to ASCII letters. */
  function ToLower(c: char): char
  {
    if 'A' <= c <= 'Z' then (c as int + 32) as char else c
  }

  predicate EqualsIgnoreCase(a: string, b: string)
  {
    |a| == |b| && forall k :: 0 <= k < |a| ==> ToLower(a[k]) == ToLower(b[k])
  }

  /** String::endsWithIgnoreCase. */
  predicate EndsWithIgnoreCase(s: string, suffix: string)
  {
    |suffix| <= |s| && EqualsIgnoreCase(s[|s| - |suffix|..], suffix)
  }

  // ---------------------------------------------------------------------------
  // XmlElement and ValueTree documents

  /** An XML element or ValueTree node: its tag (type), its numeric attributes
      (properties) and its ordered children. */
  datatype Tree = Tree(tag: string, props: map<string, real>, children: seq<Tree>)

  /** ValueTree::getProperty(name, default) and XmlElement::getDoubleAttribute(name, default). */
  function PropertyOr(t: Tree, key: string, default: real): real
  {
    if key in t.props then t.props[key] else default
  }

  /** Index of the first child whose tag satisfies the match; |cs| when none does. */
  function FirstMatch(cs: seq<Tree>, name: string, ignoreCase: bool): (k: nat)
    ensures k <= |cs|
    ensures k < |cs| ==> TagMatches(cs[k].tag, name, ignoreCase)
    ensures forall j :: 0 <= j < k ==> !TagMatches(cs[j].tag, name, ignoreCase)
  {
    if cs == [] then 0
    else if TagMatches(cs[0].tag, name, ignoreCase) then 0
    else 1 + FirstMatch(cs[1..], name, ignoreCase)
  }

  predicate TagMatches(tag: string, name: string, ignoreCase: bool)
  {
    if ignoreCase then EqualsIgnoreCase(tag, name) else tag == name
  }

  /** A search that finds nothing in `cs` continues into what follows it. */
  lemma {:induction false} FirstMatchAfter(cs: seq<Tree>, rest: seq<Tree>, name: string, ignoreCase: bool)
    requires forall k :: 0 <= k < |cs| ==> !TagMatches(cs[k].tag, name, ignoreCase)
    ensures FirstMatch(cs + rest, name, ignoreCase) == |cs| + FirstMatch(rest, name, ignoreCase)
  {
    if cs == [] {
      assert cs + rest == rest;
    } else {
      assert (cs + rest)[0] == cs[0];
      assert (cs + rest)[1..] == cs[1..] + rest;
      FirstMatchAfter(cs[1..], rest, name, ignoreCase);
    }
  }

  function FirstChild(t: Tree, name: string, ignoreCase: bool): Option<Tree>
  {
    var k := FirstMatch(t.children, name, ignoreCase);
    if k < |t.children| then Some(t.children[k]) else None
  }

  /** ValueTree::getChildWithName: the first child whose type is exactly `name`. */
  function ChildWithName(t: Tree, name: string): Option<Tree>
  {
    FirstChild(t, name, false)
  }

  /** XmlElement::getChildByName: the first child whose tag matches `name`, compared
      ignoring case as XmlElement::hasTagName does. */
  function ChildByName(t: Tree, name: string): Option<Tree>
  {
    FirstChild(t, name, true)
  }
}
