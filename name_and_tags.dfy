/** NameAndTags: the canonical identity of a metric, a sanitized dotted name, an optional
    suffix for expanded variants, and an ordered tag list. */
module Identity {
  import opened Wrappers
  import opened Client
  import opened Metrics
  import opened JavaStrings

  /** Equality (and therefore map lookup) is on all three fields; the memoised rendered name
      is not part of the value (see MemoizedName). */
  datatype NameAndTags = NameAndTags(name: string, suffix: Option<string>, tags: seq<Tag>)

  /** `new NameAndTags(String)`. */
  function OfName(name: string): (id: NameAndTags)
    ensures id.name == name && id.suffix == None && id.tags == []
  {
    NameAndTags(name, None, [])
  }

  /** `parseName`: the sanitized `group.type.name`. */
  function ParseName(m: MetricName, san: Sanitizers): string
  {
    san.metricName(m.group + "." + m.typeName + "." + m.name)
  }

  /** Consecutive parts read pairwise as (tag name, tag value). */
  function PairTags(parts: seq<string>, san: Sanitizers): seq<Tag>
    requires |parts| % 2 == 0
  {
    if parts == [] then []
    else [Tag(san.tagName(parts[0]), san.tagValue(parts[1]))] + PairTags(parts[2..], san)
  }

  /** What `parseTags` computes from a scope. */
  function ScopeTags(scope: Option<string>, san: Sanitizers): seq<Tag>
  {
    match scope
    case None => []
    case Some(s) =>
      var parts := Split(s, '.');
      if |parts| % 2 == 0 then PairTags(parts, san)
      else [Tag("scope", san.tagValue(s))]
  }

  /** `new NameAndTags(MetricName)`. */
  function FromMetricName(m: MetricName, san: Sanitizers): NameAndTags
  {
    NameAndTags(ParseName(m, san), None, ScopeTags(m.scope, san))
  }

  /** `withSuffix`: same name and tags, the sanitized suffix. */
  function WithSuffix(id: NameAndTags, suffix: string, san: Sanitizers): (r: NameAndTags)
    ensures r.name == id.name && r.tags == id.tags && r.suffix == Some(san.metricName(suffix))
  {
    NameAndTags(id.name, Some(san.metricName(suffix)), id.tags)
  }

  predicate NotEmpty(s: Option<string>)
  {
    s.Some? && |s.value| != 0
  }

  /** The string `getName` renders. */
  function Rendered(id: NameAndTags): string
  {
    id.name + (if NotEmpty(id.suffix) then "." + id.suffix.value else "")
  }

  /** `equals`. */
  predicate Equals(a: NameAndTags, b: NameAndTags)
  {
    a.name == b.name && a.suffix == b.suffix && a.tags == b.tags
  }

  /** Java's 32-bit int wrap-around. */
  function Int32(x: int): (r: int)
    ensures -0x8000_0000 <= r < 0x8000_0000
    ensures (x - r) % 0x1_0000_0000 == 0
  {
    var m := x % 0x1_0000_0000;
    if m >= 0x8000_0000 then m - 0x1_0000_0000 else m
  }

  /** `String.hashCode`: s[0]*31^(n-1) + ... + s[n-1], in int arithmetic. */
  function StringHash(s: string): int
  {
    if s == [] then 0 else Int32(31 * StringHash(s[..|s| - 1]) + s[|s| - 1] as int)
  }

  /** `List.hashCode`, given the element hash. */
  function ListHash(tags: seq<Tag>, tagHash: Tag -> int): int
  {
    if tags == [] then 1 else Int32(31 * ListHash(tags[..|tags| - 1], tagHash) + tagHash(tags[|tags| - 1]))
  }

  /** `hashCode` = `Objects.hash(name, suffix, tags)` (a null suffix hashes to 0). `Tag`'s own
      hash belongs to the client library and is a parameter. */
  function HashCode(id: NameAndTags, tagHash: Tag -> int): int
  {
    var h := Int32(31 + StringHash(id.name));
    var h' := Int32(31 * h + (if id.suffix.Some? then StringHash(id.suffix.value) else 0));
    Int32(31 * h' + ListHash(id.tags, tagHash))
  }

  /** Equality is exactly equality of name, suffix and tags, whatever constructor built the
      values, and equal values hash alike. */
  lemma EqualsIsValueEquality(a: NameAndTags, b: NameAndTags, tagHash: Tag -> int)
    ensures Equals(a, b) <==> a == b
    ensures Equals(a, b) ==> HashCode(a, tagHash) == HashCode(b, tagHash)
  {
  }

  /** A plain-name identity renders as exactly that name, and no suffixed identity equals
      it, so a variant never shares a key with a plain name. */
  lemma OfNameRendered(name: string, id: NameAndTags, suffix: string, san: Sanitizers)
    ensures Rendered(OfName(name)) == name
    ensures WithSuffix(id, suffix, san) != OfName(name)
  {
  }

  /** A suffixed identity renders as name, dot, sanitized suffix (the name alone when the
      sanitized suffix is empty); a second suffix replaces the first; and adding a suffix to
      an identity without one always gives a different key. */
  lemma WithSuffixLaws(id: NameAndTags, suffix: string, other: string, san: Sanitizers)
    ensures san.metricName(suffix) != "" ==>
      Rendered(WithSuffix(id, suffix, san)) == id.name + "." + san.metricName(suffix)
    ensures san.metricName(suffix) == "" ==> Rendered(WithSuffix(id, suffix, san)) == id.name
    ensures WithSuffix(WithSuffix(id, suffix, san), other, san) == WithSuffix(id, other, san)
    ensures id.suffix.None? ==> WithSuffix(id, suffix, san) != id
    ensures Equals(WithSuffix(id, suffix, san), WithSuffix(id, other, san)) <==>
      san.metricName(suffix) == san.metricName(other)
  {
  }

  /** `String.hashCode` folds one character at a time, `h = 31 * h + c` in `int` arithmetic,
      and stays in the `int` range. */
  lemma StringHashSnoc(s: string, c: char)
    ensures -0x8000_0000 <= StringHash(s) < 0x8000_0000
    ensures StringHash(s + [c]) == Int32(31 * StringHash(s) + c as int)
  {
    assert (s + [c])[..|s + [c]| - 1] == s;
  }

  /** Inside the `int` range the wrap-around is the identity. */
  lemma Int32InRange(x: int)
    requires -0x8000_0000 <= x < 0x8000_0000
    ensures Int32(x) == x
  {
  }

  /** Java's hash of a few short strings. */
  lemma StringHashExamples()
    ensures StringHash("") == 0 && StringHash("a") == 97 && StringHash("ab") == 3105
  {
    assert StringHash("a") == 97 by {
      StringHashSnoc("", 'a');
      assert "" + ['a'] == "a";
    }
    assert StringHash("ab") == 3105 by {
      StringHashSnoc("a", 'b');
      assert "a" + ['b'] == "ab";
      Int32InRange(31 * 97 + 98);
    }
  }

  /** `hashCode` lies in the `int` range. */
  lemma HashCodeRange(a: NameAndTags, tagHash: Tag -> int)
    ensures -0x8000_0000 <= HashCode(a, tagHash) < 0x8000_0000
  {
  }

  /** An identity with no suffix and no tags hashes as `Objects.hash(name, null,
      emptyList())`, that is `31 * (31 * (31 + name.hashCode())) + 1`. */
  lemma HashCodeExamples(tagHash: Tag -> int)
    ensures HashCode(OfName(""), tagHash) == 29792
    ensures HashCode(OfName("a"), tagHash) == 123009
  {
    assert ListHash([], tagHash) == 1;
    assert StringHash("") == 0;
    Int32InRange(31);
    Int32InRange(31 * 31);
    Int32InRange(31 * 961 + 1);
    assert StringHash("a") == 97 by {
      StringHashSnoc("", 'a');
      assert "" + ['a'] == "a";
    }
    Int32InRange(31 + 97);
    Int32InRange(31 * 128);
    Int32InRange(31 * 3968 + 1);
  }

  /** The identity of a registry name renders as its parsed name (no suffix), and two
      registry names that differ only in scope give the same name and differ as keys exactly
      when their scope tags differ. */
  lemma FromMetricNameLaws(m: MetricName, n: MetricName, san: Sanitizers)
    ensures Rendered(FromMetricName(m, san)) == ParseName(m, san)
    ensures FromMetricName(m, san).suffix.None? && FromMetricName(m, san).tags == ScopeTags(m.scope, san)
    ensures m.group == n.group && m.typeName == n.typeName && m.name == n.name ==>
      ParseName(m, san) == ParseName(n, san) &&
      (FromMetricName(m, san) == FromMetricName(n, san) <==> ScopeTags(m.scope, san) == ScopeTags(n.scope, san))
  {
  }

  /** The rendered name is the name, dot, suffix when the suffix is non-empty, and the name
      alone when it is null or empty. */
  lemma RenderedCases(id: NameAndTags)
    ensures !NotEmpty(id.suffix) ==> Rendered(id) == id.name
    ensures NotEmpty(id.suffix) ==> Rendered(id) == id.name + "." + id.suffix.value
  {
  }

  /** The tags of an even-part scope: half as many tags as parts, tag i built from parts 2i
      and 2i+1. */
  lemma {:induction false} PairTagsAt(parts: seq<string>, san: Sanitizers)
    requires |parts| % 2 == 0
    ensures |PairTags(parts, san)| == |parts| / 2
    ensures forall i :: 0 <= i < |parts| / 2 ==>
      PairTags(parts, san)[i] == Tag(san.tagName(parts[2 * i]), san.tagValue(parts[2 * i + 1]))
  {
    if parts != [] {
      PairTagsAt(parts[2..], san);
      forall i | 1 <= i < |parts| / 2
        ensures PairTags(parts, san)[i] == Tag(san.tagName(parts[2 * i]), san.tagValue(parts[2 * i + 1]))
      {
        assert parts[2..][2 * (i - 1)] == parts[2 * i];
        assert parts[2..][2 * (i - 1) + 1] == parts[2 * i + 1];
      }
    }
  }

  lemma EvenStep(i: int, n: int)
    requires i % 2 == 0 && n % 2 == 0 && i < n
    ensures i + 2 <= n && (i + 2) % 2 == 0
  {
  }

  /** Two more parts add one more tag at the end. */
  lemma {:induction false} PairTagsSnoc(parts: seq<string>, a: string, b: string, san: Sanitizers)
    requires |parts| % 2 == 0
    ensures PairTags(parts + [a, b], san) == PairTags(parts, san) + [Tag(san.tagName(a), san.tagValue(b))]
  {
    if parts == [] {
      assert ([] + [a, b])[2..] == [];
    } else {
      assert (parts + [a, b])[2..] == parts[2..] + [a, b];
      PairTagsSnoc(parts[2..], a, b, san);
    }
  }

  /** The scope rules of `parseTags`: no scope gives no tags; an even number of dot-parts
      gives the pairs in order; an odd number gives the single tag ("scope", sanitized raw
      scope). */
  lemma ScopeTagsRules(scope: Option<string>, san: Sanitizers)
    ensures scope.None? ==> ScopeTags(scope, san) == []
    ensures scope.Some? && |Split(scope.value, '.')| % 2 == 0 ==>
      var parts := Split(scope.value, '.');
      |ScopeTags(scope, san)| == |parts| / 2 &&
      forall i :: 0 <= i < |parts| / 2 ==>
        ScopeTags(scope, san)[i] == Tag(san.tagName(parts[2 * i]), san.tagValue(parts[2 * i + 1]))
    ensures scope.Some? && |Split(scope.value, '.')| % 2 == 1 ==>
      ScopeTags(scope, san) == [Tag("scope", san.tagValue(scope.value))]
  {
    if scope.Some? && |Split(scope.value, '.')| % 2 == 0 {
      PairTagsAt(Split(scope.value, '.'), san);
    }
  }

  /** A scope with no dot at all, the empty scope included, is one odd part. */
  lemma DotlessScope(s: string, san: Sanitizers)
    requires '.' !in s
    ensures ScopeTags(Some(s), san) == [Tag("scope", san.tagValue(s))]
  {
  }

  /** A scope of the form "k1.v1.k2.v2" (dot-free parts, the last one non-empty) gives
      the tags (k1, v1) and (k2, v2), sanitized. */
  lemma TwoPairScope(k1: string, v1: string, k2: string, v2: string, san: Sanitizers)
    requires '.' !in k1 && '.' !in v1 && '.' !in k2 && '.' !in v2 && v2 != ""
    ensures ScopeTags(Some(k1 + "." + v1 + "." + k2 + "." + v2), san) ==
      [Tag(san.tagName(k1), san.tagValue(v1)), Tag(san.tagName(k2), san.tagValue(v2))]
  {
    var s := k1 + "." + v1 + "." + k2 + "." + v2;
    var parts := [k1, v1, k2, v2];
    PiecesWithoutSep(v2, '.');
    PiecesCons(k2, '.', v2);
    assert k2 + "." + v2 == k2 + ['.'] + v2;
    PiecesCons(v1, '.', k2 + "." + v2);
    assert v1 + "." + k2 + "." + v2 == v1 + ['.'] + (k2 + "." + v2);
    PiecesCons(k1, '.', v1 + "." + k2 + "." + v2);
    assert s == k1 + ['.'] + (v1 + "." + k2 + "." + v2);
    assert Pieces(s, '.') == parts;
    assert s[|k1|] == '.';
    assert Split(s, '.') == parts;
    assert parts[2..] == [k2, v2];
    assert parts[2..][2..] == [];
    assert PairTags([k2, v2], san) == [Tag(san.tagName(k2), san.tagValue(v2))];
    assert ScopeTags(Some(s), san) == PairTags(parts, san);
  }

  /** `parseTags`, with its step-2 index loop. */
  method ParseTags(m: MetricName, san: Sanitizers) returns (tags: seq<Tag>)
    ensures tags == ScopeTags(m.scope, san)
  {
    tags := [];
    if m.scope.Some? {
      var scope := m.scope.value;
      var parts := Split(scope, '.');
      if |parts| % 2 == 0 {
        var i := 0;
        while i < |parts|
          invariant 0 <= i <= |parts| && i % 2 == 0
          invariant tags == PairTags(parts[..i], san)
        {
          EvenStep(i, |parts|);
          PairTagsSnoc(parts[..i], parts[i], parts[i + 1], san);
          assert parts[..i] + [parts[i], parts[i + 1]] == parts[..i + 2];
          tags := tags + [Tag(san.tagName(parts[i]), san.tagValue(parts[i + 1]))];
          i := i + 2;
        }
        assert parts[..i] == parts;
      } else {
        tags := tags + [Tag("scope", san.tagValue(scope))];
      }
    }
  }

  /** An identity object with `getName`'s memo field `_name`. */
  class MemoizedName {
    const id: NameAndTags
    var memo: Option<string>

    ghost predicate Valid()
      reads this
    {
      memo.Some? ==> memo.value == Rendered(id)
    }

    constructor (id: NameAndTags)
      ensures Valid() && this.id == id && memo == None
    {
      this.id := id;
      memo := None;
    }

    /** `getName`: renders once, then returns the memo; every call returns Rendered(id). */
    method GetName() returns (r: string)
      requires Valid()
      modifies this
      ensures Valid()
      ensures r == Rendered(id)
      ensures memo == Some(r)
    {
      if memo.None? {
        var builder := id.name;
        if NotEmpty(id.suffix) {
          builder := builder + "." + id.suffix.value;
        }
        memo := Some(builder);
      }
      r := memo.value;
    }
  }

  /** Two calls of `getName` on one object return the same string. */
  method GetNameTwice(id: NameAndTags) returns (first: string, second: string)
    ensures first == second == Rendered(id)
  {
    var o := new MemoizedName(id);
    first := o.GetName();
    second := o.GetName();
  }
}
