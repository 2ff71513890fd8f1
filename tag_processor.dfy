/** TagProcessor: parses the operator's "k=v,k=v" tag string into tags, dropping what does
    not parse. */
module TagProcessing {
  import opened Wrappers
  import opened Client
  import opened JavaStrings

  /** The comma parts: the whole input when it has no comma. */
  function RawTags(customTags: string): seq<string>
  {
    if ',' in customTags then Split(customTags, ',') else [customTags]
  }

  /** `isTagValid` (the sanitizers never return null here). */
  predicate IsTagValid(name: string, value: string)
  {
    |name| > 0 && |value| > 0
  }

  /** The tag one comma part contributes, if any: it must split on "=" into exactly two
      parts whose sanitized forms are both non-empty; the stored tag keeps the parts as
      they were, unsanitized. */
  function TagOf(part: string, san: Sanitizers): Option<Tag>
  {
    var kv := Split(part, '=');
    if |kv| == 2 && IsTagValid(san.tagName(kv[0]), san.tagValue(kv[1])) then Some(Tag(kv[0], kv[1]))
    else None
  }

  /** `TagOf` with the sanitizers fixed. */
  function TagOfWith(san: Sanitizers): string -> Option<Tag>
  {
    part => TagOf(part, san)
  }

  /** The tags `tagOf` yields for the parts, in part order. */
  function Collect(parts: seq<string>, tagOf: string -> Option<Tag>): seq<Tag>
  {
    if parts == [] then []
    else
      var last := tagOf(parts[|parts| - 1]);
      Collect(parts[..|parts| - 1], tagOf) + (if last.Some? then [last.value] else [])
  }

  /** What `process` returns. The "=" test is made on the whole input, not on each part. */
  function Processed(customTags: string, san: Sanitizers): seq<Tag>
  {
    if '=' in customTags then Collect(RawTags(customTags), TagOfWith(san)) else []
  }

  /** The body of `process`'s loop for one comma part. */
  method ParsePart(tagString: string, san: Sanitizers) returns (tag: Option<Tag>)
    ensures tag == TagOfWith(san)(tagString)
  {
    tag := None;
    var tagProperties := Split(tagString, '=');
    if |tagProperties| == 2 {
      var name := san.tagName(tagProperties[0]);
      var value := san.tagValue(tagProperties[1]);
      if IsTagValid(name, value) {
        tag := Some(Tag(tagProperties[0], tagProperties[1]));
      }
    }
  }

  /** `process`, with its loop over the comma parts. */
  method Process(customTags: string, san: Sanitizers) returns (tags: seq<Tag>)
    ensures tags == Processed(customTags, san)
  {
    var rawTags := [customTags];
    tags := [];
    if ',' in customTags {
      rawTags := Split(customTags, ',');
    }
    var i := 0;
    while i < |rawTags|
      invariant 0 <= i <= |rawTags|
      invariant tags == if '=' in customTags then Collect(rawTags[..i], TagOfWith(san)) else []
    {
      if '=' in customTags {
        var tag := ParsePart(rawTags[i], san);
        CollectStep(rawTags, i, TagOfWith(san));
        if tag.Some? {
          tags := tags + [tag.value];
        }
      }
      i := i + 1;
    }
    assert rawTags[..i] == rawTags;
  }

  /** One more part adds what it yields. */
  lemma CollectStep(parts: seq<string>, i: nat, tagOf: string -> Option<Tag>)
    requires i < |parts|
    ensures Collect(parts[..i + 1], tagOf) ==
      Collect(parts[..i], tagOf) + (if tagOf(parts[i]).Some? then [tagOf(parts[i]).value] else [])
  {
    assert parts[..i + 1][..i] == parts[..i];
  }

  /** Collecting respects concatenation, so output order follows input order. */
  lemma {:induction false} CollectConcat(a: seq<string>, b: seq<string>, tagOf: string -> Option<Tag>)
    ensures Collect(a + b, tagOf) == Collect(a, tagOf) + Collect(b, tagOf)
  {
    if b != [] {
      var b' := b[..|b| - 1];
      assert (a + b)[..|a + b| - 1] == a + b';
      CollectConcat(a, b', tagOf);
    } else {
      assert a + b == a;
    }
  }

  /** Never more tags than parts. */
  lemma {:induction false} CollectLength(parts: seq<string>, tagOf: string -> Option<Tag>)
    ensures |Collect(parts, tagOf)| <= |parts|
  {
    if parts != [] {
      CollectLength(parts[..|parts| - 1], tagOf);
    }
  }

  /** A tag is collected exactly when some part yields it. */
  lemma {:induction false} CollectMember(parts: seq<string>, tagOf: string -> Option<Tag>, t: Tag)
    ensures t in Collect(parts, tagOf) <==> exists i :: 0 <= i < |parts| && tagOf(parts[i]) == Some(t)
  {
    if parts != [] {
      var init := parts[..|parts| - 1];
      CollectMember(init, tagOf, t);
      if t in Collect(init, tagOf) {
        var i :| 0 <= i < |init| && tagOf(init[i]) == Some(t);
        assert parts[i] == init[i];
      }
      if exists i :: 0 <= i < |parts| && tagOf(parts[i]) == Some(t) {
        var i :| 0 <= i < |parts| && tagOf(parts[i]) == Some(t);
        if i < |init| {
          assert init[i] == parts[i];
        }
      }
    }
  }

  /** The rules of `process`: no "=" anywhere gives no tags; otherwise a tag is in the result
      exactly when some comma part yields it, and there are at most as many tags as parts. */
  lemma ProcessRules(customTags: string, san: Sanitizers)
    ensures '=' !in customTags ==> Processed(customTags, san) == []
    ensures |Processed(customTags, san)| <= |RawTags(customTags)|
    ensures '=' in customTags ==> forall t :: t in Processed(customTags, san) <==>
      exists i :: 0 <= i < |RawTags(customTags)| && TagOf(RawTags(customTags)[i], san) == Some(t)
  {
    var parts := RawTags(customTags);
    CollectLength(parts, TagOfWith(san));
    assert forall i :: 0 <= i < |parts| ==> TagOfWith(san)(parts[i]) == TagOf(parts[i], san);
    forall t {
      CollectMember(parts, TagOfWith(san), t);
    }
  }

  /** Without a comma the input is a single raw tag string. */
  lemma SingleTagString(customTags: string, san: Sanitizers)
    requires ',' !in customTags
    ensures Processed(customTags, san) ==
      if '=' in customTags && TagOf(customTags, san).Some? then [TagOf(customTags, san).value] else []
  {
    assert RawTags(customTags) == [customTags];
    assert [customTags][..0] == [];
    assert TagOfWith(san)(customTags) == TagOf(customTags, san);
    assert Collect([customTags], TagOfWith(san)) ==
      Collect([], TagOfWith(san)) + (if TagOf(customTags, san).Some? then [TagOf(customTags, san).value] else []);
  }

  /** A kept tag carries the two raw "=" parts, whose sanitized forms are non-empty. */
  lemma KeptTagIsRaw(part: string, san: Sanitizers)
    requires TagOf(part, san).Some?
    ensures var t := TagOf(part, san).value;
      Split(part, '=') == [t.name, t.value] &&
      san.tagName(t.name) != "" && san.tagValue(t.value) != ""
  {
  }

  /** "k=v" yields the raw pair (k, v) when both sanitize to something non-empty, and a
      trailing "=" changes nothing, because split drops the empty last piece. */
  lemma KeyValuePart(k: string, v: string, san: Sanitizers)
    requires '=' !in k && '=' !in v && v != ""
    requires san.tagName(k) != "" && san.tagValue(v) != ""
    ensures TagOf(k + "=" + v, san) == Some(Tag(k, v))
    ensures TagOf(k + "=" + v + "=", san) == Some(Tag(k, v))
  {
    var s := k + "=" + v;
    PiecesWithoutSep(v, '=');
    PiecesCons(k, '=', v);
    assert s == k + ['='] + v;
    assert s[|k|] == '=';
    assert Split(s, '=') == [k, v];
    var s' := s + "=";
    var t := v + ['='] + "";
    PiecesWithoutSep("", '=');
    PiecesCons(v, '=', "");
    PiecesCons(k, '=', t);
    assert s' == k + ['='] + t;
    assert Pieces(s', '=') == [k, v, ""];
    assert s'[|k|] == '=';
    assert [k, v, ""][..2] == [k, v];
    assert Split(s', '=') == [k, v];
  }
}
