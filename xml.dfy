/**
 * The part of an lxml element tree the builders use: a tag, attributes in
 * insertion order, the namespace map of the root, an optional text and the
 * children in document order. Tag and attribute names are kept as the
 * (namespace, local name) pair lxml splits a Clark string `{namespace}local`
 * into as soon as it receives it.
 */
module Xml {
  import opened Common

  /** A qualified name: no namespace for a bare name. */
  datatype Name = Name(namespace: Option<string>, local: string)

  datatype Element = Element(
    tag: Name,
    attributes: seq<(Name, string)>,
    nsmap: seq<(Option<string>, string)>,
    text: Option<string>,
    children: seq<Element>)

  /** `etree.SubElement(parent, tag).text = text` creates this child. */
  function Leaf(tag: Name, text: string): (e: Element)
    ensures e.tag == tag && e.text == Some(text) && e.children == [] && e.attributes == []
  {
    Element(tag, [], [], Some(text), [])
  }

  /** `"{" + ns + "}" + local`, the Clark name lxml uses for a qualified tag. */
  function Clark(ns: string, local: string): string
  {
    "{" + ns + "}" + local
  }

  /** Position of the first `c` in `s`, if any. */
  function IndexOf(s: string, c: char): (r: Option<nat>)
    ensures r.Some? ==> r.value < |s| && s[r.value] == c && NoChar(s[..r.value], c)
    ensures r.None? ==> NoChar(s, c)
  {
    if s == [] then None
    else if s[0] == c then Some(0)
    else
      var rest := IndexOf(s[1..], c);
      if rest.Some? then
        assert s[..rest.value + 1] == [s[0]] + s[1..][..rest.value];
        Some(rest.value + 1)
      else None
  }

  /** The namespace of a Clark name, and None for a bare name. */
  function NamespaceOf(name: string): Option<string>
  {
    if |name| > 0 && name[0] == '{' then
      match IndexOf(name, '}')
      case Some(end) => if end > 1 then Some(name[1..end]) else None
      case None => None
    else None
  }

  /** The local part of a name, as lxml splits it before checking it. */
  function LocalPart(name: string): string
  {
    if |name| > 0 && name[0] == '{' then
      match IndexOf(name, '}')
      case Some(end) => name[end + 1..]
      case None => ""
    else name
  }

  /** The name lxml makes of a tag or attribute string. */
  function ParseName(name: string): Name
  {
    Name(NamespaceOf(name), LocalPart(name))
  }

  /**
   * lxml accepts a tag or attribute name only when its local part is a
   * non-empty XML name without a colon; `"xsi:type"` is therefore refused
   * with ValueError, while `"{…}type"` is accepted.
   */
  predicate ValidName(name: Name)
  {
    |name.local| > 0 && NoChar(name.local, ':')
  }

  /** A namespace URI free of `}` splits back off its Clark name; `{}local` has no namespace. */
  lemma {:induction false} ClarkSplits(ns: string, local: string)
    requires NoChar(ns, '}')
    ensures ParseName(Clark(ns, local)) == Name(if |ns| > 0 then Some(ns) else None, local)
  {
    var name := Clark(ns, local);
    assert name[1..1 + |ns|] == ns;
    assert name[1 + |ns|] == '}';
    assert NoChar(name[..1 + |ns|], '}') by {
      assert forall i :: 0 <= i < 1 + |ns| ==> name[i] == (if i == 0 then '{' else ns[i - 1]);
    }
    IndexOfFirst(name, '}', 1 + |ns|);
    assert name[1 + |ns| + 1..] == local;
  }

  /** When `s[k] == c` and no earlier character is `c`, the search stops at `k`. */
  lemma {:induction false} IndexOfFirst(s: string, c: char, k: nat)
    requires k < |s| && s[k] == c && NoChar(s[..k], c)
    ensures IndexOf(s, c) == Some(k)
    decreases k
  {
    if k > 0 {
      assert s[0] == s[..k][0];
      assert s[1..][..k - 1] == s[..k][1..];
      IndexOfFirst(s[1..], c, k - 1);
    }
  }

  /** A name not opening with `{` is a bare local name. */
  lemma BareName(name: string)
    requires |name| > 0 && name[0] != '{'
    ensures ParseName(name) == Name(None, name)
  {
  }

  // ---------------------------------------------------------------------------
  // Optional children
  // ---------------------------------------------------------------------------

  /**
   * What `if value is not None: SubElement(parent, tag).text = value` adds:
   * one text leaf when the value is present, nothing otherwise.
   */
  function Optional(tag: Name, value: Option<string>): (r: seq<Element>)
    ensures |r| == (if value.Some? then 1 else 0)
  {
    if value.Some? then [Leaf(tag, value.value)] else []
  }

  /** Python `{key: value}` if `value is not None`, else `{}`. */
  function OptionalAttribute(key: Name, value: Option<string>): (r: seq<(Name, string)>)
    ensures |r| == (if value.Some? then 1 else 0)
    ensures forall a <- r :: a == (key, value.value)
  {
    if value.Some? then [(key, value.value)] else []
  }

  /** `if value is not None: attributes[key] = value`, for a key not yet in the dict. */
  method AppendAttribute(attributes: seq<(Name, string)>, key: Name, value: Option<string>)
    returns (r: seq<(Name, string)>)
    ensures r == attributes + OptionalAttribute(key, value)
  {
    r := attributes;
    if value.Some? {
      r := r + [(key, value.value)];
    }
  }

  /** `for child in source: parent.append(child)`: lxml moves each child over, in order. */
  method AppendChildren(children: seq<Element>, source: Element) returns (r: seq<Element>)
    ensures r == children + source.children
  {
    r := children;
    for i := 0 to |source.children|
      invariant r == children + source.children[..i]
    {
      r := r + [source.children[i]];
      assert source.children[..i + 1] == source.children[..i] + [source.children[i]];
    }
    assert source.children[..|source.children|] == source.children;
  }

  // ---------------------------------------------------------------------------
  // Reading children back, last first
  // ---------------------------------------------------------------------------

  /** `dict.get`: the value stored under `key`, the last one when it was set twice. */
  function Get<K(==), V>(pairs: seq<(K, V)>, key: K): Option<V>
  {
    if pairs == [] then None
    else if pairs[|pairs| - 1].0 == key then Some(pairs[|pairs| - 1].1)
    else Get(pairs[..|pairs| - 1], key)
  }

  /** `get` finds a value exactly when the key was set, and the value it finds was set under that key. */
  lemma {:induction false} GetFinds<K, V>(pairs: seq<(K, V)>, key: K)
    ensures Get(pairs, key).Some? ==> (key, Get(pairs, key).value) in pairs
    ensures Get(pairs, key).None? <==> forall p <- pairs :: p.0 != key
  {
    if pairs != [] {
      GetFinds(pairs[..|pairs| - 1], key);
      assert pairs == pairs[..|pairs| - 1] + [pairs[|pairs| - 1]];
    }
  }

  /** Setting one more key changes what `get` gives for that key only. */
  lemma GetSet<K, V>(pairs: seq<(K, V)>, key: K, value: V)
    ensures forall k :: Get(pairs + [(key, value)], k) == if k == key then Some(value) else Get(pairs, k)
  {
    assert (pairs + [(key, value)])[..|pairs|] == pairs;
  }

  lemma GetOptional(attributes: seq<(Name, string)>, key: Name, value: Option<string>)
    ensures forall k :: Get(attributes + OptionalAttribute(key, value), k)
                     == if k == key && value.Some? then value else Get(attributes, k)
  {
    if value.Some? {
      GetSet(attributes, key, value.value);
    } else {
      assert attributes + OptionalAttribute(key, value) == attributes;
    }
  }

  /** The text of `e` when it is a text leaf tagged `tag`. */
  function LeafText(e: Element, tag: Name): (r: Option<string>)
    ensures r.Some? ==> e == Leaf(tag, r.value)
    ensures forall text :: e == Leaf(tag, text) ==> r == Some(text)
  {
    if e.text.Some? && e == Leaf(tag, e.text.value) then e.text else None
  }

  /** The last child, if any, does not carry `tag`. */
  predicate LastNot(cs: seq<Element>, tag: Name)
  {
    |cs| > 0 ==> cs[|cs| - 1].tag != tag
  }

  /**
   * When the last child is a text leaf tagged `tag`: the children before it
   * and its text; otherwise the children unchanged and None.
   */
  function TakeLast(cs: seq<Element>, tag: Name): (r: (seq<Element>, Option<string>))
    ensures r.1.Some? ==> |cs| > 0 && r.0 == cs[..|cs| - 1]
    ensures r.1.None? ==> r.0 == cs
  {
    if |cs| > 0 && cs[|cs| - 1].tag == tag && cs[|cs| - 1].text.Some? then
      (cs[..|cs| - 1], cs[|cs| - 1].text)
    else (cs, None)
  }

  /** What `Optional` appends after a child of another tag, `TakeLast` takes off again. */
  lemma TakeLastOptional(cs: seq<Element>, tag: Name, value: Option<string>)
    requires LastNot(cs, tag)
    ensures TakeLast(cs + Optional(tag, value), tag) == (cs, value)
  {
    if value.Some? {
      assert (cs + Optional(tag, value))[..|cs|] == cs;
    } else {
      assert cs + Optional(tag, value) == cs;
    }
  }

  // ---------------------------------------------------------------------------
  // Runs of optional children
  // ---------------------------------------------------------------------------

  /**
   * The optional text children of an element, in the order the builder
   * considers them: `Then(run, tag, value)` considers one more.
   */
  datatype Run = Start | Then(init: Run, tag: Name, value: Option<string>)

  /** `fixed`, then one leaf for each present value of `run`, in order. */
  function Grow(fixed: seq<Element>, run: Run): (r: seq<Element>)
    ensures |fixed| <= |r| && r[..|fixed|] == fixed
  {
    match run
    case Start => fixed
    case Then(init, tag, value) => Grow(fixed, init) + Optional(tag, value)
  }

  /** The tags the run considers, in order. */
  function Tags(run: Run): seq<Name>
  {
    match run
    case Start => []
    case Then(init, tag, _) => Tags(init) + [tag]
  }

  /** No tag occurs twice. */
  predicate Distinct(tags: seq<Name>)
  {
    forall i, j :: 0 <= i < j < |tags| ==> tags[i] != tags[j]
  }

  /**
   * `if value is not None: SubElement(parent, tag).text = value`, on the
   * child list grown so far from `fixed` by `run`.
   */
  method AppendOptional(children: seq<Element>, ghost fixed: seq<Element>, ghost run: Run, tag: Name,
                        value: Option<string>) returns (r: seq<Element>, ghost grown: Run)
    requires children == Grow(fixed, run)
    ensures grown == Then(run, tag, value)
    ensures r == Grow(fixed, grown)
    ensures r == children + Optional(tag, value)
  {
    r := children;
    if value.Some? {
      r := r + [Leaf(tag, value.value)];
    }
    grown := Then(run, tag, value);
  }

  /**
   * Reads the values of a run of the given tags back off the end of `cs`,
   * last first: the children left in front, and the run read.
   */
  function ReadRun(cs: seq<Element>, tags: seq<Name>): (r: (seq<Element>, Run))
    ensures Tags(r.1) == tags
  {
    if tags == [] then (cs, Start)
    else
      var tag := tags[|tags| - 1];
      var (rest, value) := TakeLast(cs, tag);
      var (front, read) := ReadRun(rest, tags[..|tags| - 1]);
      (front, Then(read, tag, value))
  }

  /** The last grown child is the last fixed one or carries a tag of the run. */
  lemma {:induction false} GrowLast(fixed: seq<Element>, run: Run)
    ensures var g := Grow(fixed, run);
      |g| > 0 ==> g[|g| - 1].tag in Tags(run) || (|fixed| > 0 && g[|g| - 1] == fixed[|fixed| - 1])
  {
    match run
    case Start =>
    case Then(init, tag, value) =>
      GrowLast(fixed, init);
  }

  /**
   * Reading back what `Grow` built gives the fixed children and the run
   * itself, absent values included, when the tags are distinct and the
   * last fixed child carries none of them.
   */
  lemma {:induction false} ReadRunOfGrow(fixed: seq<Element>, run: Run)
    requires Distinct(Tags(run))
    requires |fixed| > 0 ==> fixed[|fixed| - 1].tag !in Tags(run)
    ensures ReadRun(Grow(fixed, run), Tags(run)) == (fixed, run)
  {
    match run
    case Start =>
    case Then(init, tag, value) =>
      var tags := Tags(run);
      assert tags == Tags(init) + [tag];
      assert tags[..|tags| - 1] == Tags(init);
      assert tag !in Tags(init) by {
        forall i | 0 <= i < |Tags(init)|
          ensures Tags(init)[i] != tag
        {
          assert tags[i] == Tags(init)[i] && tags[|tags| - 1] == tag;
        }
      }
      assert Distinct(Tags(init)) by {
        forall i, j | 0 <= i < j < |Tags(init)|
          ensures Tags(init)[i] != Tags(init)[j]
        {
          assert tags[i] == Tags(init)[i] && tags[j] == Tags(init)[j];
        }
      }
      GrowLast(fixed, init);
      assert LastNot(Grow(fixed, init), tag);
      TakeLastOptional(Grow(fixed, init), tag, value);
      ReadRunOfGrow(fixed, init);
  }

  /** Every tag and attribute name in the tree passes lxml's name check. */
  predicate NamesValid(e: Element)
  {
    && ValidName(e.tag)
    && (forall a <- e.attributes :: ValidName(a.0))
    && (forall c <- e.children :: NamesValid(c))
  }
}
