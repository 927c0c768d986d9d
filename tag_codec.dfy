/**
 * The tag micro-language of an item: `pushTag` parses free-text tags of the
 * form "Value (title)", appends them and derives the melee/slow/missile
 * flags; `popTag` removes tags by value. Both return the data patch that the
 * source hands to `this.update`.
 */
module TagCodec {
  import opened Wrappers
  import opened Text
  import opened Items

  /** A match of the pattern /\(([^)]+)\)/: where its "(" stands and the captured group. */
  datatype RegexMatch = RegexMatch(index: nat, group: string)

  /**
   * s[i..j+1] is a match of /\(([^)]+)\)/: a "(" at i, a ")" at j, at least
   * one character between them and no ")" among those characters.
   */
  ghost predicate GroupAt(s: string, i: int, j: int) {
    && 0 <= i && i + 1 < j < |s|
    && s[i] == '(' && s[j] == ')'
    && forall k :: i < k < j ==> s[k] != ')'
  }

  /** The match `exec` returns: the leftmost one. */
  ghost predicate FirstGroup(s: string, i: int, j: int) {
    GroupAt(s, i, j) && forall p, q :: p < i ==> !GroupAt(s, p, q)
  }

  /** The first ")" at or after position `j`. */
  function CloseFrom(s: string, j: nat): (r: Option<nat>)
    ensures r.Some? ==> j <= r.value < |s| && s[r.value] == ')'
    ensures r.Some? ==> forall k :: j <= k < r.value ==> s[k] != ')'
    ensures r.None? ==> forall k :: j <= k < |s| ==> s[k] != ')'
    decreases |s| - j
  {
    if j >= |s| then None
    else if s[j] == ')' then Some(j)
    else CloseFrom(s, j + 1)
  }

  /** `regExp.exec(s)` for /\(([^)]+)\)/, scanning from position `i`. */
  function ExecFrom(s: string, i: nat): (r: Option<RegexMatch>)
    ensures r.Some? ==> i <= r.value.index
    ensures r.Some? ==> GroupAt(s, r.value.index, r.value.index + |r.value.group| + 1)
    ensures r.Some? ==> r.value.group == s[r.value.index + 1..r.value.index + |r.value.group| + 1]
    ensures r.Some? ==> forall p, q :: i <= p < r.value.index ==> !GroupAt(s, p, q)
    ensures r.None? ==> forall p, q :: i <= p ==> !GroupAt(s, p, q)
    decreases |s| - i
  {
    if i + 1 >= |s| then None
    else if s[i] == '(' && s[i + 1] != ')' then
      match CloseFrom(s, i + 1)
      case Some(j) => Some(RegexMatch(i, s[i + 1..j]))
      // No ")" after this "(": no later position can match either.
      case None => None
    else ExecFrom(s, i + 1)
  }

  /** `regExp.exec(s)`: the leftmost match, if any. */
  function Exec(s: string): (r: Option<RegexMatch>)
    ensures r.Some? ==> FirstGroup(s, r.value.index, r.value.index + |r.value.group| + 1)
    ensures r.Some? ==> r.value.group == s[r.value.index + 1..r.value.index + |r.value.group| + 1]
    ensures r.None? <==> forall p, q :: !GroupAt(s, p, q)
  {
    ExecFrom(s, 0)
  }

  /**
   * One iteration of the `forEach` in `pushTag`: with a parenthetical, the
   * value is the trimmed text before its "(" and the title is its contents,
   * untrimmed; without one, title and value are both the trimmed input.
   */
  function ParseTag(raw: string): Tag {
    match Exec(raw)
    case Some(m) => Tag(m.group, Trim(raw[..m.index]))
    case None => Tag(Trim(raw), Trim(raw))
  }

  /** What ParseTag yields, stated by the shape of the input rather than by the scan. */
  lemma ParseTagMeaning(raw: string)
    ensures forall i, j :: FirstGroup(raw, i, j) ==> ParseTag(raw) == Tag(raw[i + 1..j], Trim(raw[..i]))
    ensures (forall i, j :: !GroupAt(raw, i, j)) ==> ParseTag(raw).title == ParseTag(raw).value == Trim(raw)
  {
    var m := Exec(raw);
    if m.Some? {
      var i, j := m.value.index, m.value.index + |m.value.group| + 1;
      assert FirstGroup(raw, i, j);
      FirstGroupUnique(raw, i, j);
      assert ParseTag(raw) == Tag(raw[i + 1..j], Trim(raw[..i]));
    }
  }

  /** There is only one leftmost match. */
  lemma FirstGroupUnique(s: string, i: int, j: int)
    requires FirstGroup(s, i, j)
    ensures forall p, q :: FirstGroup(s, p, q) ==> p == i && q == j
  {
    forall p, q | FirstGroup(s, p, q)
      ensures p == i && q == j
    {
    }
  }

  /**
   * A tag written "Value (title)" parses back into that value and title,
   * whatever text follows the ")" (it is dropped, later parentheticals too).
   */
  lemma ParseAnnotated(value: string, title: string, rest: string)
    requires Trimmed(value) && '(' !in value
    requires title != [] && ')' !in title
    ensures ParseTag(value + " (" + title + ")" + rest) == Tag(title, value)
  {
    var s := value + " (" + title + ")" + rest;
    AnnotatedShape(value, title, rest);
    ParseAt(s, |value| + 1, |value| + |title| + 2, value, title);
  }

  /** In "Value (title)rest" the first match is the parenthetical after the value. */
  lemma AnnotatedShape(value: string, title: string, rest: string)
    requires '(' !in value
    requires title != [] && ')' !in title
    ensures var s, i, j := value + " (" + title + ")" + rest, |value| + 1, |value| + |title| + 2;
      FirstGroup(s, i, j) && s[..i] == value + " " && s[i + 1..j] == title
  {
    var s := value + " (" + title + ")" + rest;
    var i, j := |value| + 1, |value| + |title| + 2;
    assert s[..i] == value + " ";
    assert s[i + 1..j] == title;
    assert s[i] == '(' && s[j] == ')';
    forall k | i < k < j
      ensures s[k] != ')'
    {
      assert s[k] == title[k - i - 1];
    }
    assert GroupAt(s, i, j);
    forall p, q | p < i
      ensures !GroupAt(s, p, q)
    {
      if 0 <= p < |value| {
        assert s[p] == value[p];
      }
    }
  }

  /** A first match at `i` after a trimmed value and a blank yields that value and the group as title. */
  lemma ParseAt(s: string, i: int, j: int, value: string, title: string)
    requires FirstGroup(s, i, j) && s[..i] == value + " " && s[i + 1..j] == title
    requires Trimmed(value)
    ensures ParseTag(s) == Tag(title, value)
  {
    ParseTagMeaning(s);
    TrimTrailingBlank(value);
  }

  /** A tag without "(" parses into its trimmed text as both value and title. */
  lemma ParsePlain(raw: string)
    requires '(' !in raw
    ensures ParseTag(raw) == Tag(Trim(raw), Trim(raw))
  {
    ParseTagMeaning(raw);
  }

  /** The tags `pushTag` appends, one per input, in input order. */
  function ParseAll(values: seq<string>): (r: seq<Tag>)
    ensures |r| == |values|
    ensures forall i :: 0 <= i < |values| ==> r[i] == ParseTag(values[i])
  {
    if values == [] then [] else [ParseTag(values[0])] + ParseAll(values[1..])
  }

  /** The three fields of the item that tags can switch on. */
  datatype Flag = MeleeFlag | SlowFlag | MissileFlag

  /** CONFIG.OSE.tags: the keyword that sets each flag. */
  datatype Keywords = Keywords(melee: string, slow: string, missile: string)

  /**
   * The `switch (val)` in `pushTag`: the flag whose keyword the value equals,
   * cases tried in the order melee, slow, missile.
   */
  function KeywordFlag(value: string, kw: Keywords): (f: Option<Flag>)
    ensures f == Some(MeleeFlag) <==> value == kw.melee
    ensures f == Some(SlowFlag) <==> value == kw.slow && value != kw.melee
    ensures f == Some(MissileFlag) <==> value == kw.missile && value != kw.melee && value != kw.slow
    ensures f.None? <==> value != kw.melee && value != kw.slow && value != kw.missile
  {
    if value == kw.melee then Some(MeleeFlag)
    else if value == kw.slow then Some(SlowFlag)
    else if value == kw.missile then Some(MissileFlag)
    else None
  }

  /** The flags the `switch` of `pushTag` switches on, run over the values of all `tags`. */
  function DerivedFlags(tags: seq<Tag>, kw: Keywords): (flags: set<Flag>)
    ensures MeleeFlag in flags <==> exists i :: 0 <= i < |tags| && tags[i].value == kw.melee
    ensures SlowFlag in flags <==> exists i :: 0 <= i < |tags| && tags[i].value == kw.slow && tags[i].value != kw.melee
    ensures MissileFlag in flags <==>
      exists i :: 0 <= i < |tags| && tags[i].value == kw.missile && tags[i].value != kw.melee && tags[i].value != kw.slow
  {
    set i | 0 <= i < |tags| && KeywordFlag(tags[i].value, kw).Some? :: KeywordFlag(tags[i].value, kw).value
  }

  /**
   * The data patch of `pushTag` and `popTag`: the new tag list, and the flags
   * the patch sets to true. A flag not in `flags` is absent from the patch, so
   * the update leaves it as it was; no patch ever sets a flag to false.
   */
  datatype TagPatch = TagPatch(tags: seq<Tag>, flags: set<Flag>)

  /** `data.tags` as `pushTag` copies it: an absent field counts as no tags. */
  function ExistingTags(tags: Option<seq<Tag>>): seq<Tag> {
    match tags
    case Some(ts) => ts
    case None => []
  }

  /**
   * `pushTag(values)`: the existing tags stay an unchanged prefix, one parsed
   * tag per input follows in input order (no deduplication), and the flags of
   * the patch are exactly those the parsed values switch on.
   */
  method PushTag(tags: Option<seq<Tag>>, values: seq<string>, kw: Keywords) returns (patch: TagPatch)
    ensures patch.tags == ExistingTags(tags) + ParseAll(values)
    ensures patch.flags == DerivedFlags(ParseAll(values), kw)
  {
    var existing := ExistingTags(tags);
    var update := existing;
    var flags: set<Flag> := {};
    var i := 0;
    while i < |values|
      invariant 0 <= i <= |values|
      invariant update == existing + ParseAll(values[..i])
      invariant flags == DerivedFlags(ParseAll(values[..i]), kw)
    {
      var tag := ParseTag(values[i]);
      PushInvariantStep(values, i, kw, existing, update, flags, tag);
      flags := flags + FlagsOf(KeywordFlag(tag.value, kw));
      update := update + [tag];
      i := i + 1;
    }
    assert values[..i] == values;
    patch := TagPatch(update, flags);
  }

  /** The flags one parsed tag adds in the `switch` of `pushTag`. */
  function FlagsOf(f: Option<Flag>): set<Flag> {
    match f
    case Some(g) => {g}
    case None => {}
  }

  /** One turn of the `pushTag` loop keeps both of its invariants. */
  lemma PushInvariantStep(values: seq<string>, i: nat, kw: Keywords, existing: seq<Tag>, update: seq<Tag>, flags: set<Flag>, tag: Tag)
    requires i < |values| && tag == ParseTag(values[i])
    requires update == existing + ParseAll(values[..i])
    requires flags == DerivedFlags(ParseAll(values[..i]), kw)
    ensures update + [tag] == existing + ParseAll(values[..i + 1])
    ensures flags + FlagsOf(KeywordFlag(tag.value, kw)) == DerivedFlags(ParseAll(values[..i + 1]), kw)
  {
    PushStep(values, i);
    DerivedFlagsSnoc(ParseAll(values[..i]), ParseTag(values[i]), kw);
  }

  lemma PushStep(values: seq<string>, i: nat)
    requires i < |values|
    ensures ParseAll(values[..i + 1]) == ParseAll(values[..i]) + [ParseTag(values[i])]
  {
    assert values[..i] + [values[i]] == values[..i + 1];
    ParseAllSnoc(values[..i], values[i]);
  }

  lemma {:induction false} ParseAllSnoc(values: seq<string>, v: string)
    ensures ParseAll(values + [v]) == ParseAll(values) + [ParseTag(v)]
  {
    var vs := values + [v];
    var l, r := ParseAll(vs), ParseAll(values) + [ParseTag(v)];
    forall i | 0 <= i < |l|
      ensures l[i] == r[i]
    {
      if i < |values| {
        assert vs[i] == values[i];
      }
    }
  }

  lemma DerivedFlagsSnoc(tags: seq<Tag>, t: Tag, kw: Keywords)
    ensures DerivedFlags(tags + [t], kw) == DerivedFlags(tags, kw) + FlagsOf(KeywordFlag(t.value, kw))
  {
    var ts := tags + [t];
    assert forall i :: 0 <= i < |tags| ==> ts[i] == tags[i];
    assert ts[|tags|] == t;
  }

  /**
   * The derived flags depend only on which values the tags carry: not on
   * their order and not on repetitions.
   */
  lemma DerivedFlagsOrderIndependent(a: seq<Tag>, b: seq<Tag>, kw: Keywords)
    requires forall t :: t in a <==> t in b
    ensures DerivedFlags(a, kw) == DerivedFlags(b, kw)
  {
    forall f | f in DerivedFlags(a, kw)
      ensures f in DerivedFlags(b, kw)
    {
      var i :| 0 <= i < |a| && KeywordFlag(a[i].value, kw) == Some(f);
      assert a[i] in b;
      var j :| 0 <= j < |b| && b[j] == a[i];
    }
    forall f | f in DerivedFlags(b, kw)
      ensures f in DerivedFlags(a, kw)
    {
      var j :| 0 <= j < |b| && KeywordFlag(b[j].value, kw) == Some(f);
      assert b[j] in a;
      var i :| 0 <= i < |a| && a[i] == b[j];
    }
  }

  /** The filter of `popTag`: the tags whose value differs from `value`, in their order. */
  function Without(tags: seq<Tag>, value: string): (r: seq<Tag>)
    ensures |r| <= |tags|
  {
    if tags == [] then []
    else (if tags[0].value != value then [tags[0]] else []) + Without(tags[1..], value)
  }

  /** The filter keeps exactly the tags whose value differs. */
  lemma {:induction false} WithoutMembers(tags: seq<Tag>, value: string)
    ensures forall t :: t in Without(tags, value) <==> t in tags && t.value != value
  {
    if tags != [] {
      WithoutMembers(tags[1..], value);
      assert tags == [tags[0]] + tags[1..];
    }
  }

  /** Filtering distributes over concatenation, so the kept tags keep their order. */
  lemma {:induction false} WithoutConcat(a: seq<Tag>, b: seq<Tag>, value: string)
    ensures Without(a + b, value) == Without(a, value) + Without(b, value)
  {
    if a != [] {
      WithoutConcat(a[1..], b, value);
      assert (a + b)[1..] == a[1..] + b;
    } else {
      assert a + b == b;
    }
  }

  /** Removing a value no tag carries changes nothing. */
  lemma {:induction false} WithoutAbsent(tags: seq<Tag>, value: string)
    requires forall i :: 0 <= i < |tags| ==> tags[i].value != value
    ensures Without(tags, value) == tags
  {
    if tags != [] {
      WithoutAbsent(tags[1..], value);
    }
  }

  /** Removing the value every tag carries leaves nothing. */
  lemma {:induction false} WithoutAll(tags: seq<Tag>, value: string)
    requires forall i :: 0 <= i < |tags| ==> tags[i].value == value
    ensures Without(tags, value) == []
  {
    if tags != [] {
      WithoutAll(tags[1..], value);
    }
  }

  /** Removing a value twice is the same as removing it once. */
  lemma {:induction false} WithoutIdempotent(tags: seq<Tag>, value: string)
    ensures Without(Without(tags, value), value) == Without(tags, value)
  {
    var r := Without(tags, value);
    WithoutMembers(tags, value);
    forall i | 0 <= i < |r|
      ensures r[i].value != value
    {
      assert r[i] in r;
    }
    WithoutAbsent(r, value);
  }

  /** The error `popTag` raises: `data.tags.filter` on an absent tag list. */
  datatype TagError = TagsUndefined

  /**
   * `popTag(value)`: the patch holds the tag list without every tag whose
   * value is `value`, the others in their original order, and no flag: the
   * flags a removed tag once set stay set.
   */
  function PopTag(tags: Option<seq<Tag>>, value: string): (r: Result<TagPatch, TagError>)
    ensures r.Failure? <==> tags.None?
    ensures r.Success? ==> r.value.flags == {}
    ensures r.Success? ==> forall t :: t in r.value.tags <==> t in tags.value && t.value != value
    ensures r.Success? ==> forall a, b :: tags.value == a + b ==> r.value.tags == Without(a, value) + Without(b, value)
  {
    match tags
    case Some(ts) =>
      WithoutMembers(ts, value);
      forall a, b | ts == a + b
        ensures Without(ts, value) == Without(a, value) + Without(b, value)
      {
        WithoutConcat(a, b, value);
      }
      Success(TagPatch(Without(ts, value), {}))
    case None => Failure(TagsUndefined)
  }

  /**
   * Popping a value undoes pushing tags of that value onto a list that had
   * none: the original list comes back. The flags the push set stay set.
   */
  lemma PopUndoesPush(existing: seq<Tag>, values: seq<string>, value: string)
    requires forall i :: 0 <= i < |existing| ==> existing[i].value != value
    requires forall i :: 0 <= i < |values| ==> ParseAll(values)[i].value == value
    ensures PopTag(Some(existing + ParseAll(values)), value) == Success(TagPatch(existing, {}))
  {
    var pushed := ParseAll(values);
    WithoutConcat(existing, pushed, value);
    WithoutAbsent(existing, value);
    WithoutAll(pushed, value);
    assert Without(existing + pushed, value) == existing;
  }
}
