/** The keyed layout shared by the plugin state and the preset files: value `i` of a
    harmonic array is stored under the property name "h" + String(i). */
module HarmonicKeys {
  import opened Juce

  function KeyName(i: nat): string
  {
    "h" + DecimalString(i)
  }

  lemma KeyNameInjective(i: nat, j: nat)
    requires KeyName(i) == KeyName(j)
    ensures i == j
  {
    assert KeyName(i)[1..] == DecimalString(i);
    assert KeyName(j)[1..] == DecimalString(j);
    DecimalStringInjective(i, j);
  }

  lemma KeyNamesDistinct()
    ensures forall i: nat, j: nat :: KeyName(i) == KeyName(j) ==> i == j
  {
    forall i: nat, j: nat | KeyName(i) == KeyName(j) ensures i == j {
      KeyNameInjective(i, j);
    }
  }

  /** The properties of a section that stores the whole array `a`. */
  function SectionProps(a: seq<real>): (m: map<string, real>)
    ensures forall i :: 0 <= i < |a| ==> KeyName(i) in m && m[KeyName(i)] == a[i]
    ensures forall key :: key in m ==> exists i :: 0 <= i < |a| && key == KeyName(i)
  {
    KeyNamesDistinct();
    map i | 0 <= i < |a| :: KeyName(i) := a[i]
  }

  /** An element or tree named `tag` that stores the whole array `a`. */
  function SectionTree(tag: string, a: seq<real>): Tree
  {
    Tree(tag, SectionProps(a), [])
  }

  /** The loop of XmlElement::setAttribute / ValueTree::setProperty calls that stores
      every element of `a` under its key, starting from an element with no properties. */
  method WriteSection(a: seq<real>) returns (props: map<string, real>)
    ensures props == SectionProps(a)
  {
    props := map[];
    var i := 0;
    while i < |a|
      invariant 0 <= i <= |a|
      invariant forall k :: 0 <= k < i ==> KeyName(k) in props && props[KeyName(k)] == a[k]
      invariant forall key :: key in props ==> exists k :: 0 <= k < i && key == KeyName(k)
    {
      forall k | 0 <= k < i ensures KeyName(k) != KeyName(i) {
        if KeyName(k) == KeyName(i) { KeyNameInjective(k, i); }
      }
      props := props[KeyName(i) := a[i]];
      i := i + 1;
    }
    KeyNamesDistinct();
  }

  /** Reading a stored key back gives the stored element; any other key is absent. */
  lemma {:induction false} SectionPropsRead(tag: string, a: seq<real>, i: nat)
    ensures PropertyOr(SectionTree(tag, a), KeyName(i), 0.0) == ArrayGet(a, i)
  {
    var m := SectionProps(a);
    if KeyName(i) in m {
      var j :| 0 <= j < |a| && KeyName(i) == KeyName(j);
      KeyNameInjective(i, j);
    }
  }
}
