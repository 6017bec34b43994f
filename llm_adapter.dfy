/** The style catalogue and the positional line diff of server/llmAdapter.js. */
module LlmAdapter {
  import opened Js

  // ---------------------------------------------------------------------------
  // Style catalogue

  /** One catalogue entry: display name, short description, rewrite instruction. */
  datatype StyleGuidance = StyleGuidance(name: string, description: string, instruction: string)

  /** STYLE_GUIDANCE as the object literal declares it, key by key. */
  const Catalogue: seq<(string, StyleGuidance)> := [
    ("concise", StyleGuidance(
      "Concise",
      "Shorter and more direct",
      "Rewrite to be shorter and more direct. Remove unnecessary words. Keep the core intent clear.")),
    ("detailed", StyleGuidance(
      "Detailed",
      "Expanded with context and specifics",
      "Expand with more context and specificity. Add relevant details, constraints, and format preferences.")),
    ("creative", StyleGuidance(
      "Creative",
      "Encourages imaginative responses",
      "Rewrite to encourage more imaginative responses. Add elements that invite novel approaches.")),
    ("analytical", StyleGuidance(
      "Analytical",
      "Structured for logical output",
      "Restructure for systematic, logical responses. Break down into clear steps with good structure."))
  ]

  function KeysOf(entries: seq<(string, StyleGuidance)>): (keys: seq<string>)
    ensures |keys| == |entries|
    ensures forall i :: 0 <= i < |entries| ==> keys[i] == entries[i].0
    decreases |entries|
  {
    if entries == [] then [] else [entries[0].0] + KeysOf(entries[1..])
  }

  function Lookup(entries: seq<(string, StyleGuidance)>, key: string): (r: Option<StyleGuidance>)
    ensures r.Some? <==> key in KeysOf(entries)
    ensures r.Some? ==> (key, r.value) in entries
    decreases |entries|
  {
    if entries == [] then None
    else if entries[0].0 == key then Some(entries[0].1)
    else Lookup(entries[1..], key)
  }

  /** getAllStyles: Object.keys(STYLE_GUIDANCE), the keys in declaration order. */
  function GetAllStyles(): seq<string> {
    ["concise", "detailed", "creative", "analytical"]
  }

  /** The four style names are exactly the catalogue's keys, in order. */
  lemma GetAllStylesAreKeys()
    ensures GetAllStyles() == KeysOf(Catalogue)
  {
    assert KeysOf(Catalogue)[0] == Catalogue[0].0;
  }

  /** The properties every object literal inherits from Object.prototype. */
  predicate ObjectPrototypeMember(key: string) {
    || key == "constructor" || key == "__defineGetter__" || key == "__defineSetter__"
    || key == "hasOwnProperty" || key == "__lookupGetter__" || key == "__lookupSetter__"
    || key == "isPrototypeOf" || key == "propertyIsEnumerable" || key == "toString"
    || key == "valueOf" || key == "__proto__" || key == "toLocaleString"
  }

  /** What `STYLE_GUIDANCE[style] || null` yields: an own entry, an inherited
      member (a function, or Object.prototype itself for `__proto__`, all
      truthy), or null. */
  datatype Guidance = Entry(guidance: StyleGuidance) | Inherited(member: string) | NoGuidance

  /** No style shadows an inherited member. */
  lemma StylesAreOwnKeys()
    ensures forall style :: style in GetAllStyles() ==> !ObjectPrototypeMember(style)
  {
    assert !ObjectPrototypeMember("concise");
    assert !ObjectPrototypeMember("detailed");
    assert !ObjectPrototypeMember("creative");
    assert !ObjectPrototypeMember("analytical");
  }

  /** getStyleGuidance: the catalogue entry for one of the four keys, the
      inherited member for a key of Object.prototype, null for any other key. */
  function GetStyleGuidance(style: string): (r: Guidance)
    ensures r.Entry? <==> style in GetAllStyles()
    ensures r.Entry? ==> (style, r.guidance) in Catalogue
    ensures r.Inherited? <==> ObjectPrototypeMember(style)
    ensures r.Inherited? ==> r.member == style
    ensures r.NoGuidance? <==> style !in GetAllStyles() && !ObjectPrototypeMember(style)
  {
    GetAllStylesAreKeys();
    StylesAreOwnKeys();
    match Lookup(Catalogue, style)
    case Some(g) => Entry(g)
    case None => if ObjectPrototypeMember(style) then Inherited(style) else NoGuidance
  }

  /** No key is declared twice, so a key names exactly one entry. */
  lemma CatalogueKeysDistinct()
    ensures forall i, j :: 0 <= i < j < |Catalogue| ==> Catalogue[i].0 != Catalogue[j].0
  {
    GetAllStylesAreKeys();
    assert forall i :: 0 <= i < |Catalogue| ==> Catalogue[i].0 == GetAllStyles()[i];
  }

  // ---------------------------------------------------------------------------
  // Positional line diff

  datatype ChangeKind = Same | Removed | Added

  datatype DiffEntry = DiffEntry(kind: ChangeKind, text: string)

  /** `lines[i] || ''`: past the end of the shorter side, a line reads as empty. */
  function LineAt(lines: seq<string>, i: nat): string {
    if i < |lines| then lines[i] else ""
  }

  /** The entries one index contributes: one `same` entry when the two lines are
      equal, otherwise a `removed` entry for a non-empty original line followed by
      an `added` entry for a non-empty refined line. */
  function LineEntries(o: string, r: string): (b: seq<DiffEntry>)
    ensures 1 <= |b| <= 2
  {
    if o == r then [DiffEntry(Same, o)]
    else if |o| > 0 && |r| > 0 then [DiffEntry(Removed, o), DiffEntry(Added, r)]
    else if |o| > 0 then [DiffEntry(Removed, o)]
    else [DiffEntry(Added, r)]
  }

  /** What one index contributes, entry by entry: `same` exactly when the lines
      agree; otherwise only changes, never with an empty text, the original
      line present exactly when it is non-empty, likewise the refined line, and
      a `removed` entry always before the `added` entry. */
  lemma LineEntriesShape(o: string, r: string)
    ensures var b := LineEntries(o, r);
      && (b[0].kind == Same <==> o == r)
      && (o == r ==> b == [DiffEntry(Same, o)])
      && (o != r ==> forall k :: 0 <= k < |b| ==> b[k].kind != Same && b[k].text != "")
      && (o != r ==> (DiffEntry(Removed, o) in b <==> o != ""))
      && (o != r ==> (DiffEntry(Added, r) in b <==> r != ""))
      && (|b| == 2 ==> b == [DiffEntry(Removed, o), DiffEntry(Added, r)])
  {
  }

  function Max(a: nat, b: nat): nat {
    if a < b then b else a
  }

  function Min(a: nat, b: nat): nat {
    if a < b then a else b
  }

  /** The entries of the first `n` line indices. */
  function DiffUpTo(ol: seq<string>, rl: seq<string>, n: nat): seq<DiffEntry>
    decreases n
  {
    if n == 0 then []
    else DiffUpTo(ol, rl, n - 1) + LineEntries(LineAt(ol, n - 1), LineAt(rl, n - 1))
  }

  /** The diff of two line sequences, the shorter one padded with empty lines. */
  function DiffLines(ol: seq<string>, rl: seq<string>): seq<DiffEntry> {
    DiffUpTo(ol, rl, Max(|ol|, |rl|))
  }

  /** generateDiff's result, stated on the two texts. */
  function Diff(original: string, refined: string): seq<DiffEntry> {
    DiffLines(Split(original, '\n'), Split(refined, '\n'))
  }

  /** generateDiff: one pass over the line indices, pushing entries. */
  method GenerateDiff(original: string, refined: string) returns (diff: seq<DiffEntry>)
    ensures diff == Diff(original, refined)
  {
    var originalLines := Split(original, '\n');
    var refinedLines := Split(refined, '\n');
    diff := [];
    var maxLines := Max(|originalLines|, |refinedLines|);
    var i := 0;
    while i < maxLines
      invariant 0 <= i <= maxLines
      invariant diff == DiffUpTo(originalLines, refinedLines, i)
    {
      var origLine := if i < |originalLines| then originalLines[i] else "";
      var refLine := if i < |refinedLines| then refinedLines[i] else "";
      ghost var before := diff;
      ghost var entries := LineEntries(origLine, refLine);
      assert DiffUpTo(originalLines, refinedLines, i + 1) == before + entries;
      if origLine == refLine {
        diff := diff + [DiffEntry(Same, origLine)];
      } else {
        if origLine != "" {
          diff := diff + [DiffEntry(Removed, origLine)];
        }
        if refLine != "" {
          diff := diff + [DiffEntry(Added, refLine)];
        }
        assert diff == before + entries;
      }
      i := i + 1;
    }
  }

  // ---------------------------------------------------------------------------
  // Properties of the diff

  /** Every index gives one or two entries. */
  lemma {:induction false} DiffUpToLength(ol: seq<string>, rl: seq<string>, n: nat)
    ensures n <= |DiffUpTo(ol, rl, n)| <= 2 * n
    decreases n
  {
    if n > 0 {
      DiffUpToLength(ol, rl, n - 1);
    }
  }

  /** The diff has between maxLines and 2 * maxLines entries. */
  lemma DiffLength(original: string, refined: string)
    ensures var m := Max(|Split(original, '\n')|, |Split(refined, '\n')|);
      m <= |Diff(original, refined)| <= 2 * m
  {
    DiffUpToLength(Split(original, '\n'), Split(refined, '\n'),
      Max(|Split(original, '\n')|, |Split(refined, '\n')|));
  }

  /** No `removed` or `added` entry carries an empty line. */
  predicate ChangesNonEmpty(d: seq<DiffEntry>) {
    forall k :: 0 <= k < |d| && d[k].kind != Same ==> d[k].text != ""
  }

  lemma {:induction false} NoEmptyChange(ol: seq<string>, rl: seq<string>, n: nat)
    ensures ChangesNonEmpty(DiffUpTo(ol, rl, n))
    decreases n
  {
    if n > 0 {
      NoEmptyChange(ol, rl, n - 1);
      var prev := DiffUpTo(ol, rl, n - 1);
      var o, r := LineAt(ol, n - 1), LineAt(rl, n - 1);
      var b := LineEntries(o, r);
      LineEntriesShape(o, r);
      assert ChangesNonEmpty(b);
      var d: seq<DiffEntry> := prev + b;
      forall k | 0 <= k < |d| && d[k].kind != Same ensures d[k].text != "" {
        if k < |prev| {
          assert d[k] == prev[k];
        } else {
          assert d[k] == b[k - |prev|];
        }
      }
    }
  }

  lemma DiffChangesNonEmpty(original: string, refined: string)
    ensures ChangesNonEmpty(Diff(original, refined))
  {
    var ol, rl := Split(original, '\n'), Split(refined, '\n');
    NoEmptyChange(ol, rl, Max(|ol|, |rl|));
  }

  /** The diff of a text against itself: one `same` entry per line, in order. */
  lemma {:induction false} DiffOfSelfUpTo(ls: seq<string>, n: nat)
    requires n <= |ls|
    ensures DiffUpTo(ls, ls, n) == seq(n, i requires 0 <= i < n => DiffEntry(Same, ls[i]))
    decreases n
  {
    if n > 0 {
      DiffOfSelfUpTo(ls, n - 1);
    }
  }

  lemma DiffOfSelf(x: string)
    ensures var lines := Split(x, '\n');
      Diff(x, x) == seq(|lines|, i requires 0 <= i < |lines| => DiffEntry(Same, lines[i]))
  {
    DiffOfSelfUpTo(Split(x, '\n'), |Split(x, '\n')|);
  }

  /** The non-empty lines of a line sequence, in order. */
  function NonEmpty(lines: seq<string>): (r: seq<string>)
    ensures forall k :: 0 <= k < |r| ==> r[k] != ""
    decreases |lines|
  {
    if lines == [] then []
    else if |lines[0]| > 0 then [lines[0]] + NonEmpty(lines[1..])
    else NonEmpty(lines[1..])
  }

  lemma {:induction false} NonEmptyAppend(a: seq<string>, b: seq<string>)
    ensures NonEmpty(a + b) == NonEmpty(a) + NonEmpty(b)
    decreases |a|
  {
    if a == [] {
      assert a + b == b;
    } else {
      var ab := a + b;
      assert ab[0] == a[0];
      assert ab[1..] == a[1..] + b;
      NonEmptyAppend(a[1..], b);
      if |a[0]| > 0 {
        assert NonEmpty(ab) == [a[0]] + NonEmpty(a[1..] + b);
        assert NonEmpty(a) == [a[0]] + NonEmpty(a[1..]);
      } else {
        assert NonEmpty(ab) == NonEmpty(a[1..] + b);
      }
    }
  }

  /** The non-empty texts of the entries not of kind `drop`: with `drop ==
      Added` the original side of a diff, with `drop == Removed` the refined side. */
  function Side(d: seq<DiffEntry>, drop: ChangeKind): seq<string>
    decreases |d|
  {
    if d == [] then []
    else if d[0].kind != drop && |d[0].text| > 0 then [d[0].text] + Side(d[1..], drop)
    else Side(d[1..], drop)
  }

  lemma {:induction false} SideAppend(a: seq<DiffEntry>, b: seq<DiffEntry>, drop: ChangeKind)
    ensures Side(a + b, drop) == Side(a, drop) + Side(b, drop)
    decreases |a|
  {
    if a == [] {
      assert a + b == b;
    } else {
      var ab := a + b;
      assert ab[0] == a[0];
      assert ab[1..] == a[1..] + b;
      SideAppend(a[1..], b, drop);
      if a[0].kind != drop && |a[0].text| > 0 {
        assert Side(ab, drop) == [a[0].text] + Side(a[1..] + b, drop);
        assert Side(a, drop) == [a[0].text] + Side(a[1..], drop);
      } else {
        assert Side(ab, drop) == Side(a[1..] + b, drop);
      }
    }
  }

  lemma SideOne(e: DiffEntry, drop: ChangeKind)
    ensures Side([e], drop) == if e.kind != drop && |e.text| > 0 then [e.text] else []
  {
    assert [e][1..] == [];
  }

  lemma NonEmptyOne(line: string)
    ensures NonEmpty([line]) == if |line| > 0 then [line] else []
  {
    assert [line][1..] == [];
  }

  /** One index's entries read back: its original line (if non-empty) on the
      original side, its refined line (if non-empty) on the refined side. */
  lemma LineEntriesSides(o: string, r: string)
    ensures Side(LineEntries(o, r), Added) == NonEmpty([o])
    ensures Side(LineEntries(o, r), Removed) == NonEmpty([r])
  {
    NonEmptyOne(o);
    NonEmptyOne(r);
    if o != r && |o| > 0 && |r| > 0 {
      var removed, added := DiffEntry(Removed, o), DiffEntry(Added, r);
      assert LineEntries(o, r) == [removed] + [added];
      SideAppend([removed], [added], Added);
      SideAppend([removed], [added], Removed);
      SideOne(removed, Added);
      SideOne(removed, Removed);
      SideOne(added, Added);
      SideOne(added, Removed);
    } else {
      SideOne(LineEntries(o, r)[0], Added);
      SideOne(LineEntries(o, r)[0], Removed);
      assert LineEntries(o, r) == [LineEntries(o, r)[0]];
    }
  }

  lemma {:induction false} NonEmptyPadded(ls: seq<string>, n: nat)
    requires n > 0
    ensures NonEmpty(ls[..Min(n, |ls|)]) == NonEmpty(ls[..Min(n - 1, |ls|)]) + NonEmpty([LineAt(ls, n - 1)])
  {
    if n - 1 < |ls| {
      assert ls[..n] == ls[..n - 1] + [ls[n - 1]];
      NonEmptyAppend(ls[..n - 1], [ls[n - 1]]);
    } else {
      assert NonEmpty([""]) == [];
    }
  }

  lemma {:induction false} SidesUpTo(ol: seq<string>, rl: seq<string>, n: nat)
    ensures Side(DiffUpTo(ol, rl, n), Added) == NonEmpty(ol[..Min(n, |ol|)])
    ensures Side(DiffUpTo(ol, rl, n), Removed) == NonEmpty(rl[..Min(n, |rl|)])
    decreases n
  {
    if n > 0 {
      SidesUpTo(ol, rl, n - 1);
      var o, r := LineAt(ol, n - 1), LineAt(rl, n - 1);
      SideAppend(DiffUpTo(ol, rl, n - 1), LineEntries(o, r), Added);
      SideAppend(DiffUpTo(ol, rl, n - 1), LineEntries(o, r), Removed);
      LineEntriesSides(o, r);
      NonEmptyPadded(ol, n);
      NonEmptyPadded(rl, n);
    }
  }

  /** Reading a diff back: the `same` and `removed` entries give the non-empty
      lines of the original, the `same` and `added` entries those of the
      refined text, each in order. */
  lemma DiffSides(original: string, refined: string)
    ensures Side(Diff(original, refined), Added) == NonEmpty(Split(original, '\n'))
    ensures Side(Diff(original, refined), Removed) == NonEmpty(Split(refined, '\n'))
  {
    var ol, rl := Split(original, '\n'), Split(refined, '\n');
    SidesUpTo(ol, rl, Max(|ol|, |rl|));
    assert ol[..|ol|] == ol && rl[..|rl|] == rl;
  }

  /** How an entry reads when its line stands against an empty line: an empty
      line is `same`, any other is a change of the given kind. */
  function AgainstEmpty(line: string, kind: ChangeKind): DiffEntry {
    if line == "" then DiffEntry(Same, "") else DiffEntry(kind, line)
  }

  lemma {:induction false} AddedAgainstEmpty(ls: seq<string>, n: nat)
    requires 1 <= |ls| && n <= |ls|
    ensures DiffUpTo([""], ls, n) == seq(n, i requires 0 <= i < n => AgainstEmpty(ls[i], Added))
    decreases n
  {
    if n > 0 {
      AddedAgainstEmpty(ls, n - 1);
      assert LineAt([""], n - 1) == "" && LineAt(ls, n - 1) == ls[n - 1];
      assert LineEntries("", ls[n - 1]) == [AgainstEmpty(ls[n - 1], Added)];
    }
  }

  lemma {:induction false} RemovedAgainstEmpty(ls: seq<string>, n: nat)
    requires 1 <= |ls| && n <= |ls|
    ensures DiffUpTo(ls, [""], n) == seq(n, i requires 0 <= i < n => AgainstEmpty(ls[i], Removed))
    decreases n
  {
    if n > 0 {
      RemovedAgainstEmpty(ls, n - 1);
      assert LineAt([""], n - 1) == "" && LineAt(ls, n - 1) == ls[n - 1];
      assert LineEntries(ls[n - 1], "") == [AgainstEmpty(ls[n - 1], Removed)];
    }
  }

  /** Against an empty text, every non-empty line of the other text is
      `added` (resp. `removed`), in order; each empty line of it, including the
      first, stands as a `same` entry with empty text. */
  lemma DiffAgainstEmpty(text: string)
    ensures var ls := Split(text, '\n');
      && Diff("", text) == seq(|ls|, i requires 0 <= i < |ls| => AgainstEmpty(ls[i], Added))
      && Diff(text, "") == seq(|ls|, i requires 0 <= i < |ls| => AgainstEmpty(ls[i], Removed))
  {
    var ls := Split(text, '\n');
    assert Split("", '\n') == [""];
    AddedAgainstEmpty(ls, |ls|);
    RemovedAgainstEmpty(ls, |ls|);
  }
}
