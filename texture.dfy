/** The label textures of src/infinite-canvas/card-texture.ts: the text a
    label carries (rank badge, title, subscriber count, a description wrapped
    to at most two lines) and the module-level cache of finished textures,
    keyed by card id, bounded to 512 entries and evicted in insertion order.

    Pixels are not modelled: a texture is the `Label` it was synthesised from
    (or none, for the blank fallback) plus a disposed flag. Text width, which
    the source asks of the 2D context, is a function on strings. */
module CardTexture {
  import opened Common
  import opened Types

  /** `MAX_CACHE`. */
  const MaxCache := 512
  /** The label's inner margin, in texture pixels. */
  const Padding := 48.0
  /** Distance between two description lines. */
  const LineHeight := 32.0
  /** Characters of the description kept before wrapping. */
  const DescriptionLimit := 160

  /** `formatSubscribers`, up to the digits `toFixed` prints: which suffix the
      count gets, and the value that is printed before it. */
  datatype SubscriberText = Millions(value: real) | Thousands(value: real) | Plain(text: string)

  function FormatSubscribers(n: int): (r: SubscriberText)
    ensures r.Millions? <==> n >= 1000000
    ensures r.Thousands? <==> 1000 <= n < 1000000
    ensures r.Plain? <==> n < 1000
    ensures r.Millions? ==> r.value >= 1.0 && r.value * 1000000.0 == n as real
    ensures r.Thousands? ==> 1.0 <= r.value < 1000.0 && r.value * 1000.0 == n as real
    ensures r.Plain? ==> r.text == IntToString(n)
  {
    if n >= 1000000 then Millions(n as real / 1000000.0)
    else if n >= 1000 then Thousands(n as real / 1000.0)
    else Plain(IntToString(n))
  }

  /** `truncate`: text longer than `maxLen` keeps its first `maxLen` characters
      followed by "..."; anything else (the empty text included) is kept. */
  function Truncate(text: string, maxLen: nat): (r: string)
    ensures |r| <= maxLen + 3
    ensures text == "" ==> r == ""
    ensures |text| <= maxLen ==> r == text
    ensures |text| > maxLen ==> |r| == maxLen + 3 && r[..maxLen] == text[..maxLen] && r[maxLen..] == "..."
  {
    if text == "" then "" else if |text| > maxLen then text[..maxLen] + "..." else text
  }

  /** Truncation never turns a non-empty text into an empty one, and what it
      keeps is always a prefix of the text. */
  lemma TruncatePrefix(text: string, maxLen: nat)
    ensures text != "" ==> Truncate(text, maxLen) != ""
    ensures var k := if |text| <= maxLen then |text| else maxLen;
      k <= |Truncate(text, maxLen)| && Truncate(text, maxLen)[..k] == text[..k]
  {
  }

  /** JavaScript's `s.split(" ")`: the pieces between single spaces, empty
      pieces included ("" splits into [""]). */
  function Split(s: string): (r: seq<string>)
    ensures |r| >= 1
    ensures forall i :: 0 <= i < |r| ==> ' ' !in r[i]
    decreases |s|
  {
    if s == "" then [""]
    else if s[0] == ' ' then [""] + Split(s[1..])
    else
      var t := Split(s[1..]);
      [[s[0]] + t[0]] + t[1..]
  }

  /** `words.join(" ")`. */
  function Join(words: seq<string>): string
    decreases |words|
  {
    if words == [] then "" else if |words| == 1 then words[0] else words[0] + " " + Join(words[1..])
  }

  /** Splitting at spaces loses nothing: joining the pieces gives the text back. */
  lemma {:induction false} JoinSplit(s: string)
    ensures Join(Split(s)) == s
    decreases |s|
  {
    if s != "" {
      var t := Split(s[1..]);
      JoinSplit(s[1..]);
      if s[0] == ' ' {
        assert Split(s) == [""] + t;
        assert Split(s)[1..] == t;
        assert s == [' '] + s[1..];
      } else {
        var r := [[s[0]] + t[0]] + t[1..];
        assert Split(s) == r;
        if |t| == 1 {
          assert Join(r) == [s[0]] + t[0];
        } else {
          assert r[1..] == t[1..];
          assert Join(t) == t[0] + " " + Join(t[1..]);
        }
        assert s == [s[0]] + s[1..];
      }
    }
  }

  /** One description line as drawn: its text and its baseline. */
  datatype TextLine = TextLine(text: string, y: real)

  /** The words followed by a space each, run together: what the wrap loop
      accumulates. */
  function Spaced(words: seq<string>): string
    decreases |words|
  {
    if words == [] then "" else Spaced(words[..|words| - 1]) + words[|words| - 1] + " "
  }

  /** The text of the drawn lines, run together. */
  function Texts(lines: seq<TextLine>): string
    decreases |lines|
  {
    if lines == [] then "" else Texts(lines[..|lines| - 1]) + lines[|lines| - 1].text
  }

  /** The description wrap loop from word `n` on, with the current `line`,
      baseline `y`, count of printed lines and lines drawn so far; the result
      is every line drawn, the closing "print last line" included. A word that
      makes the line wider than `maxWidth` (never the first word) draws the
      line and starts a new one; the second such line ends the loop, and then
      nothing more is drawn. */
  function WrapFrom(words: seq<string>, width: string -> real, maxWidth: real,
                    n: nat, line: string, y: real, printed: nat, drawn: seq<TextLine>): seq<TextLine>
    requires n <= |words|
    decreases |words| - n
  {
    if n == |words| then
      if printed < 2 then drawn + [TextLine(line, y)] else drawn
    else
      var test := line + words[n] + " ";
      if width(test) > maxWidth && n > 0 then
        var drawn' := drawn + [TextLine(line, y)];
        if printed + 1 >= 2 then drawn'
        else WrapFrom(words, width, maxWidth, n + 1, words[n] + " ", y + LineHeight, printed + 1, drawn')
      else
        WrapFrom(words, width, maxWidth, n + 1, test, y, printed, drawn)
  }

  /** The lines drawn for the (already truncated) description `desc`, the
      first at baseline `y0`. */
  function Wrap(desc: string, width: string -> real, maxWidth: real, y0: real): seq<TextLine> {
    WrapFrom(Split(desc), width, maxWidth, 0, "", y0, 0, [])
  }

  /** What the wrap loop keeps true of its lines while it runs: at most one
      drawn, one line height apart from `y0`, the current one below them. */
  ghost predicate LineState(n: nat, words: seq<string>, y: real, printed: nat, drawn: seq<TextLine>, y0: real)
  {
    && n <= |words| && printed <= 1 && |drawn| == printed
    && (forall i :: 0 <= i < |drawn| ==> drawn[i].y == y0 + i as real * LineHeight)
    && y == y0 + printed as real * LineHeight
  }

  /** What the wrap loop keeps true while it runs: also, the text so far is
      the first `n` words, each followed by a space. */
  ghost predicate WrapState(words: seq<string>, n: nat, line: string, y: real, printed: nat,
                            drawn: seq<TextLine>, y0: real)
  {
    && LineState(n, words, y, printed, drawn, y0)
    && Texts(drawn) + line == Spaced(words[..n])
  }

  /** The wrap loop draws one or two lines, one line height apart from `y0`. */
  lemma {:induction false} WrapFromLines(words: seq<string>, width: string -> real, maxWidth: real,
                                         n: nat, line: string, y: real, printed: nat,
                                         drawn: seq<TextLine>, y0: real)
    requires LineState(n, words, y, printed, drawn, y0)
    ensures var r := WrapFrom(words, width, maxWidth, n, line, y, printed, drawn);
      && 1 <= |r| <= 2
      && (forall i :: 0 <= i < |r| ==> r[i].y == y0 + i as real * LineHeight)
    decreases |words| - n
  {
    var r := WrapFrom(words, width, maxWidth, n, line, y, printed, drawn);
    var drawn' := drawn + [TextLine(line, y)];
    if n == |words| {
      assert r == drawn';
    } else {
      var test := line + words[n] + " ";
      if width(test) > maxWidth && n > 0 {
        if printed + 1 >= 2 {
          assert r == drawn';
        } else {
          assert r == WrapFrom(words, width, maxWidth, n + 1, words[n] + " ", y + LineHeight, printed + 1, drawn');
          WrapFromLines(words, width, maxWidth, n + 1, words[n] + " ", y + LineHeight, printed + 1, drawn', y0);
        }
      } else {
        assert r == WrapFrom(words, width, maxWidth, n + 1, test, y, printed, drawn);
        WrapFromLines(words, width, maxWidth, n + 1, test, y, printed, drawn, y0);
      }
    }
  }

  /** Drawing the current line adds its text to the drawn text. */
  lemma TextsSnoc(drawn: seq<TextLine>, line: string, y: real)
    ensures Texts(drawn + [TextLine(line, y)]) == Texts(drawn) + line
  {
    assert (drawn + [TextLine(line, y)])[..|drawn|] == drawn;
  }

  /** One more word, followed by a space, extends the spaced text. */
  lemma SpacedSnoc(words: seq<string>, n: nat)
    requires n < |words|
    ensures Spaced(words[..n + 1]) == Spaced(words[..n]) + words[n] + " "
  {
    assert words[..n + 1][..n] == words[..n];
  }

  /** A word that fits is appended to the current line. */
  lemma WrapStateExtend(words: seq<string>, n: nat, line: string, y: real, printed: nat,
                        drawn: seq<TextLine>, y0: real)
    requires WrapState(words, n, line, y, printed, drawn, y0) && n < |words|
    ensures WrapState(words, n + 1, line + words[n] + " ", y, printed, drawn, y0)
  {
    SpacedSnoc(words, n);
    assert Texts(drawn) + (line + words[n] + " ") == Texts(drawn) + line + words[n] + " ";
  }

  /** A word that does not fit draws the line and starts the next one. */
  lemma WrapStateBreak(words: seq<string>, n: nat, line: string, y: real, printed: nat,
                       drawn: seq<TextLine>, y0: real)
    requires WrapState(words, n, line, y, printed, drawn, y0) && n < |words| && printed == 0
    ensures WrapState(words, n + 1, words[n] + " ", y + LineHeight, printed + 1,
                      drawn + [TextLine(line, y)], y0)
  {
    SpacedSnoc(words, n);
    TextsSnoc(drawn, line, y);
    assert Texts(drawn) + line + (words[n] + " ") == Texts(drawn) + line + words[n] + " ";
  }

  /** Together the drawn lines hold the first `m` words, each followed by a
      space, in order, with no marker added; words are left out only when two
      lines were drawn. */
  lemma {:induction false} WrapFromText(words: seq<string>, width: string -> real, maxWidth: real,
                                        n: nat, line: string, y: real, printed: nat,
                                        drawn: seq<TextLine>, y0: real) returns (m: nat)
    requires WrapState(words, n, line, y, printed, drawn, y0)
    ensures var r := WrapFrom(words, width, maxWidth, n, line, y, printed, drawn);
      && m <= |words| && Texts(r) == Spaced(words[..m])
      && (m < |words| ==> |r| == 2)
    decreases |words| - n
  {
    var r := WrapFrom(words, width, maxWidth, n, line, y, printed, drawn);
    var drawn' := drawn + [TextLine(line, y)];
    if n == |words| {
      assert r == drawn';
      TextsSnoc(drawn, line, y);
      m := n;
    } else if width(line + words[n] + " ") > maxWidth && n > 0 {
      if printed + 1 >= 2 {
        assert r == drawn';
        TextsSnoc(drawn, line, y);
        m := n;
      } else {
        assert r == WrapFrom(words, width, maxWidth, n + 1, words[n] + " ", y + LineHeight, printed + 1, drawn');
        WrapStateBreak(words, n, line, y, printed, drawn, y0);
        m := WrapFromText(words, width, maxWidth, n + 1, words[n] + " ", y + LineHeight, printed + 1, drawn', y0);
      }
    } else {
      assert r == WrapFrom(words, width, maxWidth, n + 1, line + words[n] + " ", y, printed, drawn);
      WrapStateExtend(words, n, line, y, printed, drawn, y0);
      m := WrapFromText(words, width, maxWidth, n + 1, line + words[n] + " ", y, printed, drawn, y0);
    }
  }

  /** The description wrap as it runs in `renderCardTexture`: a loop over the
      words that may stop early, then the closing line. */
  method WrapDescription(desc: string, width: string -> real, maxWidth: real, y0: real)
    returns (drawn: seq<TextLine>)
    ensures drawn == Wrap(desc, width, maxWidth, y0)
  {
    var words := Split(desc);
    var line := "";
    var y := y0;
    var printed := 0;
    drawn := [];
    for n := 0 to |words|
      invariant printed < 2
      invariant WrapFrom(words, width, maxWidth, n, line, y, printed, drawn) == Wrap(desc, width, maxWidth, y0)
    {
      var test := line + words[n] + " ";
      if width(test) > maxWidth && n > 0 {
        drawn := drawn + [TextLine(line, y)];
        line := words[n] + " ";
        y := y + LineHeight;
        printed := printed + 1;
        if printed >= 2 {
          line := "...";
          break;
        }
      } else {
        line := test;
      }
    }
    if printed < 2 {
      drawn := drawn + [TextLine(line, y)];
    }
  }

  /** What a label shows. */
  datatype Label = Label(rank: string, title: string, subscribers: SubscriberText, description: seq<TextLine>)

  /** The label synthesised for `card` on a texture of `texWidth` x `texHeight`:
      the description, when there is one, truncated to 160 characters and
      wrapped to `texWidth - 2 * padding`, starting `padding + 40` above the
      bottom edge. */
  function LabelOf(card: CardItem, width: string -> real, texWidth: real, texHeight: real): Label {
    Label(
      "#" + IntToString(card.rank),
      "r/" + card.name,
      FormatSubscribers(card.subscribers),
      if card.description == "" then []
      else Wrap(Truncate(card.description, DescriptionLimit), width, texWidth - 2.0 * Padding,
                texHeight - Padding - 40.0))
  }

  /** Description lines are drawn exactly when the card has a description, and
      there are at most two of them. */
  lemma LabelDescription(card: CardItem, width: string -> real, texWidth: real, texHeight: real)
    ensures var d := LabelOf(card, width, texWidth, texHeight).description;
      && |d| <= 2
      && (d == [] <==> card.description == "")
  {
    if card.description != "" {
      var desc := Truncate(card.description, DescriptionLimit);
      WrapFromLines(Split(desc), width, texWidth - 2.0 * Padding, 0, "", texHeight - Padding - 40.0, 0, [],
                    texHeight - Padding - 40.0);
    }
  }

  /** The lines drawn for a description hold, run together, its first `m`
      words in order, each followed by a space; words are left out only when
      two lines were drawn. */
  lemma WrapKeepsWords(desc: string, width: string -> real, maxWidth: real, y0: real) returns (m: nat)
    ensures var r := Wrap(desc, width, maxWidth, y0);
      && m <= |Split(desc)| && Texts(r) == Spaced(Split(desc)[..m])
      && (m < |Split(desc)| ==> |r| == 2)
  {
    assert Split(desc)[..0] == [];
    m := WrapFromText(Split(desc), width, maxWidth, 0, "", y0, 0, [], y0);
  }

  /** Key order after a miss admits `key`, as the eviction is evidently meant:
      a full cache drops its oldest key first. */
  function Admit(order: seq<string>, key: string): (r: seq<string>)
    ensures |r| >= 1 && r[|r| - 1] == key
    ensures |order| < MaxCache ==> |r| == |order| + 1
    ensures |order| >= MaxCache ==> |r| == |order|
    ensures r[..|r| - 1] == order[|order| - (|r| - 1)..]
    ensures |order| <= MaxCache ==> |r| <= MaxCache
  {
    if |order| >= MaxCache then order[1..] + [key] else order + [key]
  }

  /** The key a miss on a cache with key order `order` evicts, if any. */
  function Evicted(order: seq<string>): (r: set<string>)
    ensures |r| <= 1 && (forall k :: k in r ==> k in order)
    ensures r == {} <==> |order| < MaxCache
    ensures Distinct(order) && |order| == MaxCache ==>
      forall k :: k in order ==> (k in r <==> k !in order[1..])
  {
    if |order| >= MaxCache then {order[0]} else {}
  }

  /** A miss on a cache within its bound: the bound still holds, the new key is
      the newest, keys stay distinct, and the only key lost is the oldest one
      and only when the cache was full. */
  lemma AdmitFacts(order: seq<string>, key: string)
    requires Distinct(order) && key !in order && |order| <= MaxCache
    ensures var r := Admit(order, key);
      && |r| <= MaxCache
      && r[|r| - 1] == key
      && Distinct(r)
      && (forall k :: k in r <==> k == key || (k in order && (|order| < MaxCache || k != order[0])))
  {
    var r := Admit(order, key);
    if |order| >= MaxCache {
      DistinctTail(order);
    }
    var kept := if |order| >= MaxCache then order[1..] else order;
    assert Distinct(kept);
    assert r == kept + [key];
    assert Distinct(r) by {
      forall i, j | 0 <= i < j < |r| ensures r[i] != r[j] {
        if j == |r| - 1 { assert r[i] in kept; }
      }
    }
    forall k ensures k in r <==> k == key || (k in order && (|order| < MaxCache || k != order[0])) {
      if |order| >= MaxCache && k in order && k != order[0] {
        var i :| 0 <= i < |order| && order[i] == k;
        assert kept[i - 1] == k;
      }
    }
  }

  /** Key order after a miss as `renderCardTexture` is written: the oldest key
      is dropped only when it is truthy, so an oldest id "" is never dropped. */
  function AdmitAsWritten(order: seq<string>, key: string): seq<string> {
    if |order| >= MaxCache && order[0] != "" then order[1..] + [key] else order + [key]
  }

  /** The keys after one miss per key of `keys`, as written. */
  function AdmitAllAsWritten(order: seq<string>, keys: seq<string>): seq<string>
    decreases |keys|
  {
    if keys == [] then order else AdmitAllAsWritten(AdmitAsWritten(order, keys[0]), keys[1..])
  }

  /** Once the oldest id is "" in a full cache, no miss evicts anything again:
      the cache grows by one entry per miss, past its bound. */
  lemma {:induction false} EmptyIdStallsEviction(order: seq<string>, keys: seq<string>)
    requires |order| >= MaxCache && order[0] == ""
    ensures |AdmitAllAsWritten(order, keys)| == |order| + |keys|
    decreases |keys|
  {
    if keys != [] {
      var next := AdmitAsWritten(order, keys[0]);
      assert next == order + [keys[0]];
      EmptyIdStallsEviction(next, keys[1..]);
    }
  }

  /** A concrete instance: a full cache whose oldest card has id "" holds 513
      entries after a single miss. */
  lemma EmptyIdOverflow()
    ensures var full := [""] + seq(MaxCache - 1, i => "c" + IntToString(i));
      |AdmitAsWritten(full, "new")| == MaxCache + 1
  {
  }

  /** A finished texture: the label it was drawn from (`None` for the blank
      fallback canvas), the id of the card it was made for (ghost) and whether
      it has been disposed. */
  class Texture {
    const content: Option<Label>
    ghost const cardId: string
    var disposed: bool

    constructor (content: Option<Label>, ghost cardId: string)
      ensures this.content == content && this.cardId == cardId && !disposed
    {
      this.content := content;
      this.cardId := cardId;
      disposed := false;
    }

    /** `texture.dispose()`. */
    method Dispose()
      modifies this
      ensures disposed
    {
      disposed := true;
    }
  }

  /** The texture cache. The texture size and the text measure are those of
      the 2D context the labels are drawn with. */
  class TextureCache {
    const texWidth: real
    const texHeight: real
    const measure: string -> real
    var order: seq<string>
    var entries: map<string, Texture>

    /** Keys listed once in insertion order, at most 512 of them; each entry is
        a live texture drawn for a card with that id, and no two keys share a
        texture. */
    ghost predicate Valid()
      reads this, entries.Values
    {
      Shape() && Coherent() && Unshared() && Live()
    }

    /** The map's own invariants and the size bound. */
    ghost predicate Shape()
      reads this
    {
      Distinct(order) && KeysMatch(order, entries) && |order| <= MaxCache
    }

    /** Each entry is a label drawn for a card with that id. */
    ghost predicate Coherent()
      reads this
    {
      forall k :: k in entries ==> entries[k].cardId == k && entries[k].content.Some?
    }

    /** No two keys share a texture. */
    ghost predicate Unshared()
      reads this
    {
      forall k, k' :: k in entries && k' in entries && k != k' ==> entries[k] != entries[k']
    }

    /** No cached texture has been disposed. */
    ghost predicate Live()
      reads this, entries.Values
    {
      forall k :: k in entries ==> !entries[k].disposed
    }

    constructor (texWidth: real, texHeight: real, measure: string -> real)
      ensures Valid() && order == [] && entries == map[]
      ensures this.texWidth == texWidth && this.texHeight == texHeight && this.measure == measure
    {
      this.texWidth := texWidth;
      this.texHeight := texHeight;
      this.measure := measure;
      order := [];
      entries := map[];
    }

    /** The cache-management step of a miss on a full cache: dispose the
        oldest texture and delete its key. */
    method EvictOldest()
      requires Valid() && order != []
      modifies this, entries[order[0]]
      ensures Valid()
      ensures order == old(order)[1..] && entries == old(entries) - {old(order)[0]}
      ensures old(entries)[old(order)[0]].disposed
    {
      var first := order[0];
      var victim := entries[first];
      victim.Dispose();
      DistinctTail(order);
      order := order[1..];
      entries := entries - {first};
      assert Shape();
      assert Coherent();
      assert Unshared();
      assert Live();
    }

    /** `textureCache.set(key, t)` for a key not yet cached. */
    method Insert(key: string, t: Texture)
      requires Valid() && |order| < MaxCache && key !in entries
      requires t !in entries.Values && !t.disposed && t.cardId == key && t.content.Some?
      modifies this
      ensures Valid()
      ensures order == old(order) + [key] && entries == old(entries)[key := t]
    {
      assert Distinct(order + [key]) by {
        forall i, j | 0 <= i < j < |order| + 1 ensures (order + [key])[i] != (order + [key])[j] {
          if j == |order| { assert (order + [key])[i] in order; }
        }
      }
      order := order + [key];
      entries := entries[key := t];
    }

    /** The synthesis step of a miss: the label drawn for `card`. */
    method Synthesize(card: CardItem) returns (drawn: Label)
      ensures drawn == LabelOf(card, measure, texWidth, texHeight)
    {
      var lines: seq<TextLine> := [];
      if card.description != "" {
        var desc := Truncate(card.description, DescriptionLimit);
        lines := WrapDescription(desc, measure, texWidth - 2.0 * Padding, texHeight - Padding - 40.0);
      }
      drawn := Label("#" + IntToString(card.rank), "r/" + card.name, FormatSubscribers(card.subscribers), lines);
    }

    /** The cache-management step of a miss: a full cache first disposes and
        deletes its oldest entry. */
    method MakeRoom()
      requires Valid()
      modifies this, entries.Values
      ensures Valid() && |order| < MaxCache
      ensures order == (if |old(order)| >= MaxCache then old(order)[1..] else old(order))
      ensures entries == old(entries) - Evicted(old(order))
      ensures |old(order)| >= MaxCache ==> old(entries)[old(order)[0]].disposed
    {
      if |order| >= MaxCache {
        EvictOldest();
      }
    }

    /** A miss with a context: synthesise the label, make room, cache it. */
    method Store(card: CardItem) returns (t: Texture)
      requires Valid() && card.id !in entries
      modifies this, entries.Values
      ensures Valid()
      ensures fresh(t) && t.cardId == card.id
      ensures t.content == Some(LabelOf(card, measure, texWidth, texHeight))
      ensures order == Admit(old(order), card.id)
      ensures entries == (old(entries) - Evicted(old(order)))[card.id := t]
      ensures |old(order)| >= MaxCache ==> old(entries)[old(order)[0]].disposed
    {
      var key := card.id;
      var synthesised := Synthesize(card);
      t := new Texture(Some(synthesised), key);
      MakeRoom();
      Insert(key, t);
    }

    /** `renderCardTexture(card)`. The caller also passes whether the device is
        a touch device; the function does not read it. `hasContext` is whether
        `getContext("2d")` gave a context.
        - A hit returns the stored texture, even if `card` differs from the card
          it was drawn for, and changes nothing.
        - Without a context, a fresh blank texture is returned and the cache is
          left alone.
        - Otherwise the label is synthesised and cached; a full cache first
          disposes and deletes its oldest entry. */
    method Render(card: CardItem, isTouchDevice: bool, hasContext: bool) returns (t: Texture)
      requires Valid()
      modifies this, entries.Values
      ensures Valid()
      ensures card.id in old(entries) ==>
        t == old(entries)[card.id] && order == old(order) && entries == old(entries)
      ensures card.id !in old(entries) && !hasContext ==>
        fresh(t) && t.cardId == card.id && t.content == None && order == old(order) && entries == old(entries)
      ensures card.id !in old(entries) && hasContext ==>
        && fresh(t) && t.cardId == card.id
        && t.content == Some(LabelOf(card, measure, texWidth, texHeight))
        && order == Admit(old(order), card.id)
        && entries == (old(entries) - Evicted(old(order)))[card.id := t]
        && (|old(order)| >= MaxCache ==> old(entries)[old(order)[0]].disposed)
    {
      var key := card.id;
      if key in entries {
        return entries[key];
      }
      if !hasContext {
        t := new Texture(None, key);
        return;
      }
      t := Store(card);
    }
  }
}
