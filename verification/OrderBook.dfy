// Order-book maintenance of json_parser/orderbook_json_parser.cpp: snapshots
// clear the book, and every array of levels is applied pair by pair.

module OrderBook {
  import opened Options
  import opened OrderBookText

  type Side = map<real, real>

  // updateMap: volume zero removes the price level.
  function UpdateMap(side: Side, u: Update): Side {
    if u.volume == 0.0 then side - {u.price} else side[u.price := u.volume]
  }

  // The state after an array was parsed, or after the pair that threw.
  datatype Parsed = Parsed(side: Side, ok: bool)

  // Where the pair that starts at pos ends.
  function PairEnd(s: string, pos: nat): (end: nat)
    requires pos < |s| <= NPOS
    ensures pos <= end < |s|
  {
    var k := Find(s, "],[", pos);
    if k >= |s| then |s| - 1 else k
  }

  // Pair texts in order.
  datatype Texts = Nil | Cons(head: string, tail: Texts)

  // The pair texts that the loop cuts out from pos on.
  function PiecesFrom(s: string, pos: nat): Texts
    requires |s| <= NPOS
    decreases |s| - pos
  {
    if pos >= |s| then Nil else Cons(s[pos..PairEnd(s, pos)], PiecesFrom(s, PairEnd(s, pos) + 3))
  }

  // Pairs applied in order, until one throws.
  function ParsePairs(pairs: Texts, side: Side): Parsed {
    match pairs
    case Nil => Parsed(side, true)
    case Cons(head, tail) =>
      var first := PairInto(head, side);
      if first.ok then ParsePairs(tail, first.side) else first
  }

  // One pair applied to a side; false when parsePair throws.
  function PairInto(pairStr: string, side: Side): Parsed {
    var pair := ParsePair(pairStr);
    if pair.None? then Parsed(side, false) else Parsed(UpdateMap(side, pair.value), true)
  }

  function ParseArrayOf(s: string, side: Side): Parsed
    requires |s| <= NPOS
  {
    ParsePairs(PiecesFrom(s, 1), side)
  }

  function ApplyAll(side: Side, updates: seq<Update>): Side {
    if updates == [] then side
    else UpdateMap(ApplyAll(side, updates[..|updates| - 1]), updates[|updates| - 1])
  }

  // ------------------------------------------------------- rendered levels

  function Updates(levels: seq<Level>): (us: seq<Update>)
    ensures |us| == |levels|
  {
    seq(|levels|, i requires 0 <= i < |levels| => UpdateOf(levels[i]))
  }

  // Pair texts after their first bracket, separated and closed by brackets.
  function Tail(pairs: Texts): string {
    match pairs
    case Nil => ""
    case Cons(head, Nil) => head + "]"
    case Cons(head, tail) => head + "],[" + Tail(tail)
  }

  function PairTexts(levels: seq<Level>): Texts {
    if levels == [] then Nil else Cons(PairText(levels[0]), PairTexts(levels[1..]))
  }

  function Render(levels: seq<Level>): string {
    if levels == [] then "" else "[" + Tail(PairTexts(levels))
  }

  lemma ApplyFirst(side: Side, u: Update, us: seq<Update>)
    ensures ApplyAll(side, [u] + us) == ApplyAll(UpdateMap(side, u), us)
  {
    if us == [] {
      assert [u] + us == [u];
      assert [u][..0] == [];
    } else {
      ApplyFirst(side, u, us[..|us| - 1]);
      assert ([u] + us)[..|us|] == [u] + us[..|us| - 1];
    }
  }

  predicate HasNoClosing(pair: string) { forall i :: 0 <= i < |pair| ==> pair[i] != ']' }

  // Inside a text, a pair without brackets ends where the next bracket is.
  lemma PairEndAt(s: string, pos: nat, pair: string, after: string)
    requires pos < |s| < NPOS && s[pos..] == pair + "]" + after && HasNoClosing(pair)
    requires after == "" || (|after| >= 2 && after[0] == ',' && after[1] == '[')
    ensures PairEnd(s, pos) == pos + |pair| && s[pos..pos + |pair|] == pair
  {
    var k := pos + |pair|;
    forall i | pos <= i < k
      ensures !MatchesAt(s, "],[", i)
    {
      assert s[i] == s[pos..][i - pos] == pair[i - pos] != "],["[0];
    }
    if after == "" {
      assert !MatchesAt(s, "],[", k);
      FindNothing(s, "],[", pos);
    } else {
      assert s[k] == s[pos..][|pair|] == ']';
      assert s[k + 1] == s[pos..][|pair| + 1] == after[0];
      assert s[k + 2] == s[pos..][|pair| + 2] == after[1];
      FindAt(s, "],[", pos, k);
    }
  }

  lemma PieceIs(s: string, pos: nat, pair: string, after: string, next: nat)
    requires pos < |s| < NPOS && s[pos..] == pair + "]" + after && HasNoClosing(pair)
    requires after == "" || (|after| >= 2 && after[0] == ',' && after[1] == '[')
    requires next == pos + |pair| + 3
    ensures PiecesFrom(s, pos) == Cons(pair, PiecesFrom(s, next))
  {
    PairEndAt(s, pos, pair, after);
  }

  // One round of the loop.
  lemma ParsesPiece(s: string, pos: nat, end: nat, next: nat, side: Side)
    requires pos < |s| <= NPOS && PairEnd(s, pos) == end && next == end + 3
    ensures var first := PairInto(s[pos..end], side);
            ParsePairs(PiecesFrom(s, pos), side) ==
            if first.ok then ParsePairs(PiecesFrom(s, next), first.side) else first
  {
    PieceUnrolls(s, pos, end, next);
  }

  lemma PieceUnrolls(s: string, pos: nat, end: nat, next: nat)
    requires pos < |s| <= NPOS && PairEnd(s, pos) == end && next == end + 3
    ensures PiecesFrom(s, pos) == Cons(s[pos..end], PiecesFrom(s, next))
  {
  }

  lemma PieceAndRest(s: string, pos: nat, pair: string, rest: string) returns (next: nat)
    requires pos <= |s| < NPOS && s[pos..] == pair + "],[" + rest && HasNoClosing(pair)
    ensures PiecesFrom(s, pos) == Cons(pair, PiecesFrom(s, next)) && next <= |s| && s[next..] == rest
  {
    next := pos + |pair| + 3;
    assert s[pos..] == pair + "]" + (",[" + rest);
    assert s[next..] == s[pos..][|pair| + 3..];
    PieceIs(s, pos, pair, ",[" + rest, next);
  }

  predicate NoneClosing(pairs: Texts) {
    pairs.Cons? ==> HasNoClosing(pairs.head) && NoneClosing(pairs.tail)
  }

  // The loop cuts joined pairs where they were joined.
  lemma CutEnd(s: string, pos: nat, pair: string)
    requires pos <= |s| < NPOS && s[pos..] == pair + "]" && HasNoClosing(pair)
    ensures PiecesFrom(s, pos) == Cons(pair, Nil)
  {
    assert s[pos..] == pair + "]" + "";
    PieceIs(s, pos, pair, "", |s| + 2);
  }

  lemma {:induction false} TailIsCut(s: string, pos: nat, pairs: Texts)
    requires pairs.Cons? && NoneClosing(pairs) && pos <= |s| < NPOS && s[pos..] == Tail(pairs)
    ensures PiecesFrom(s, pos) == pairs
    decreases pairs
  {
    match pairs {
      case Cons(pair, Nil) =>
        CutEnd(s, pos, pair);
      case Cons(pair, rest) =>
        var next := PieceAndRest(s, pos, pair, Tail(rest));
        TailIsCut(s, next, rest);
    }
  }

  lemma LevelIsReadable(l: Level)
    requires |PairText(l)| < NPOS
    ensures HasNoClosing(PairText(l)) && ParsePair(PairText(l)) == Some(UpdateOf(l))
  {
    PairTextHasNoBrackets(l);
    PairTextReads(l);
  }

  lemma TailFits(pairs: Texts)
    requires pairs.Cons?
    ensures |pairs.head| < |Tail(pairs)| && |Tail(pairs.tail)| < |Tail(pairs)|
  {
  }

  lemma {:induction false} LevelsAreRead(levels: seq<Level>, side: Side)
    requires |Tail(PairTexts(levels))| < NPOS
    ensures NoneClosing(PairTexts(levels))
    ensures ParsePairs(PairTexts(levels), side) == Parsed(ApplyAll(side, Updates(levels)), true)
  {
    if levels != [] {
      var l, rest := levels[0], levels[1..];
      TailFits(PairTexts(levels));
      LevelIsReadable(l);
      LevelsAreRead(rest, UpdateMap(side, UpdateOf(l)));
      assert Updates(levels) == [UpdateOf(l)] + Updates(rest);
      ApplyFirst(side, UpdateOf(l), Updates(rest));
    }
  }

  // Parsing rendered levels applies exactly those updates, in order.
  lemma {:induction false} ParsingAppliesLevels(levels: seq<Level>, side: Side)
    requires levels != [] && |Render(levels)| < NPOS
    ensures ParseArrayOf(Render(levels), side) == Parsed(ApplyAll(side, Updates(levels)), true)
  {
    LevelsAreRead(levels, side);
    TailIsCut(Render(levels), 1, PairTexts(levels));
  }

  // -------------------------------------------------------------- messages

  datatype Kind = Snapshot | Delta | UnknownType

  // A message: its kind and the text of its data section.
  datatype Message = Message(kind: Kind, data: string)

  datatype Book = Book(bids: Side, asks: Side)

  // The text between two markers; None when substr throws.
  function Section(data: string, opening: string, closing: string): (r: Option<string>)
    ensures r.Some? ==> |r.value| <= |data|
  {
    var start := Wrap(Find(data, opening, 0) + |opening|);
    Cut(data, start, Find(data, closing, start))
  }

  function Cut(data: string, start: nat, end: nat): (r: Option<string>)
    ensures start <= end <= |data| < NPOS ==> r == Some(data[start..end])
    ensures r.Some? ==> |r.value| <= |data|
  {
    Substr(data, start, Wrap(end - start))
  }

  // An empty array text is not parsed at all.
  function ParseText(text: Option<string>, side: Side): Parsed
    requires text.Some? ==> |text.value| <= NPOS
  {
    if text.None? then Parsed(side, false)
    else if text.value == "" then Parsed(side, true)
    else ParseArrayOf(text.value, side)
  }

  const BidsOpen := "\"b\":["
  const BidsClose := "],\"a"
  const AsksOpen := "\"a\":["
  const AsksClose := "],\"u"

  // The book after a message, and whether no exception left it half applied.
  function Handle(book: Book, m: Message): (Book, bool)
    requires |m.data| <= NPOS
  {
    if m.kind.UnknownType? then (book, true)
    else
      var start := if m.kind.Snapshot? then Book(map[], map[]) else book;
      var bids := ParseText(Section(m.data, BidsOpen, BidsClose), start.bids);
      if !bids.ok then (start.(bids := bids.side), false)
      else
        var asks := ParseText(Section(m.data, AsksOpen, AsksClose), start.asks);
        (Book(bids.side, asks.side), asks.ok)
  }

  class OrderBookJsonParser {
    var bids: Side
    var asks: Side

    function Levels(): Book
      reads this
    {
      Book(bids, asks)
    }

    // The body of the loop in parseArray, on the text of one pair.
    method ParsePriceVolume(pairStr: string, isBids: bool) returns (ok: bool)
      modifies this
      ensures var r := PairInto(pairStr, if isBids then old(bids) else old(asks));
              && ok == r.ok
              && Levels() == if isBids then old(Levels()).(bids := r.side) else old(Levels()).(asks := r.side)
    {
      var priceVolume := ParsePair(pairStr);
      if priceVolume.None? {
        return false;
      }
      if isBids {
        bids := UpdateMap(bids, priceVolume.value);
      } else {
        asks := UpdateMap(asks, priceVolume.value);
      }
      return true;
    }

    // parseArray on one side; false when parsePair throws.
    method ParseArray(arrayStr: string, isBids: bool) returns (ok: bool)
      requires |arrayStr| <= NPOS
      modifies this
      ensures var r := ParseArrayOf(arrayStr, if isBids then old(bids) else old(asks));
              && ok == r.ok
              && Levels() == if isBids then old(Levels()).(bids := r.side) else old(Levels()).(asks := r.side)
    {
      var pos := 1;
      while pos < |arrayStr|
        invariant ParseArrayOf(arrayStr, if isBids then old(bids) else old(asks)) ==
                  ParsePairs(PiecesFrom(arrayStr, pos), if isBids then bids else asks)
        invariant if isBids then asks == old(asks) else bids == old(bids)
        decreases |arrayStr| - pos
      {
        var commaPos := Find(arrayStr, "],[", pos);
        if commaPos >= |arrayStr| {
          commaPos := |arrayStr| - 1;
        }
        var next := commaPos + 3;
        ParsesPiece(arrayStr, pos, commaPos, next, if isBids then bids else asks);
        ok := ParsePriceVolume(arrayStr[pos..commaPos], isBids);
        if !ok {
          return;
        }
        pos := next;
      }
      return true;
    }

    // One array of parseDataSection.
    method ParseSection(data: string, opening: string, closing: string, isBids: bool) returns (ok: bool)
      requires |data| <= NPOS
      modifies this
      ensures var r := ParseText(Section(data, opening, closing), if isBids then old(bids) else old(asks));
              && ok == r.ok
              && Levels() == if isBids then old(Levels()).(bids := r.side) else old(Levels()).(asks := r.side)
    {
      var start := Wrap(Find(data, opening, 0) + |opening|);
      var end := Find(data, closing, start);
      var arrayStr := Cut(data, start, end);
      if arrayStr.None? {
        return false;
      }
      ok := true;
      if arrayStr.value != "" {
        ok := ParseArray(arrayStr.value, isBids);
      }
    }

    method Parse(m: Message) returns (ok: bool)
      requires |m.data| <= NPOS
      modifies this
      ensures (Levels(), ok) == Handle(old(Levels()), m)
    {
      if m.kind.UnknownType? {
        return true;
      }
      if m.kind.Snapshot? {
        bids, asks := map[], map[];
      }
      ok := ParseSection(m.data, BidsOpen, BidsClose, true);
      if ok {
        ok := ParseSection(m.data, AsksOpen, AsksClose, false);
      }
    }
  }

  // ------------------------------------------------------ the data section

  // The section as the exchange writes it, the symbol before the arrays.
  function DataText(head: string, bids: seq<Level>, asks: seq<Level>, rest: string): string {
    head + BidsOpen + Render(bids) + BidsClose + AsksOpen[2..] + Render(asks) + AsksClose + rest
  }

  predicate Without(s: string, c: char) { forall i :: 0 <= i < |s| ==> s[i] != c }

  // A marker is found where its own letter first appears.
  lemma FindMarked(s: string, from: nat, at: nat, pat: string, k: nat)
    requires from <= at && at + |pat| <= |s| && s[at..at + |pat|] == pat && k < |pat|
    requires Without(s[from..at], pat[k]) && Without(pat[..k], pat[k])
    ensures Find(s, pat, from) == at
  {
    assert MatchesAt(s, pat, at);
    forall i | from <= i < at
      ensures !MatchesAt(s, pat, i)
    {
      if i + |pat| <= |s| {
        assert s[i..i + |pat|][k] == s[i + k];
        if i + k < at {
          assert s[i + k] == s[from..at][i + k - from];
        } else {
          assert s[i + k] == s[at..at + |pat|][i + k - at] == pat[..k][i + k - at];
        }
      }
    }
    FindAt(s, pat, from, at);
  }

  // What the section is, once the positions of its markers are known.
  lemma SectionFrom(data: string, opening: string, closing: string, start: nat, end: nat)
    requires start <= end <= |data| < NPOS
    requires Find(data, opening, 0) + |opening| == start && Find(data, closing, start) == end
    ensures Section(data, opening, closing) == Some(data[start..end])
  {
    assert Wrap(start) == start;
  }

  // The text between a marker at p and a marker at q.
  lemma SectionAt(s: string, opening: string, closing: string, p: nat, q: nat, j: nat, k: nat)
    requires j < |opening| && k < |closing| && Without(opening[..j], opening[j]) && Without(closing[..k], closing[k])
    requires p + |opening| <= q && q + |closing| <= |s| < NPOS
    requires s[p..p + |opening|] == opening && s[q..q + |closing|] == closing
    requires Without(s[0..p], opening[j]) && Without(s[p + |opening|..q], closing[k])
    ensures Section(s, opening, closing) == Some(s[p + |opening|..q])
  {
    FindMarked(s, 0, p, opening, j);
    FindMarked(s, p + |opening|, q, closing, k);
    SectionFrom(s, opening, closing, p + |opening|, q);
  }

  // Where the parts of a text lie.
  lemma FiveParts(a: string, b: string, c: string, d: string, e: string)
    ensures var s, p, q := a + b + c + d + e, |a + b|, |a + b + c|;
            s[0..|a|] == a && s[|a|..p] == b && s[p..q] == c && s[q..q + |d|] == d
  {
  }

  predicate IsPlainChar(c: char) { IsNumeralChar(c) || c == '"' || c == ',' || c == '[' || c == ']' }

  predicate Plain(s: string) { forall i :: 0 <= i < |s| ==> IsPlainChar(s[i]) }

  lemma PairTextIsPlain(l: Level)
    ensures Plain(PairText(l))
  {
    TextIsNumeral(l.price);
    TextIsNumeral(l.volume);
  }

  lemma {:induction false} TailIsPlain(levels: seq<Level>)
    ensures Plain(Tail(PairTexts(levels)))
  {
    if levels != [] {
      PairTextIsPlain(levels[0]);
      TailIsPlain(levels[1..]);
    }
  }

  lemma RenderIsPlain(levels: seq<Level>)
    ensures Plain(Render(levels))
  {
    TailIsPlain(levels);
  }

  lemma SectionIs(s: string, pre: string, opening: string, body: string, closing: string, rest: string)
    requires s == pre + opening + body + closing + rest && |s| < NPOS && Plain(body)
    requires (opening, closing) == (BidsOpen, BidsClose) || (opening, closing) == (AsksOpen, AsksClose)
    requires Without(pre, opening[1])
    ensures Section(s, opening, closing) == Some(body)
  {
    FiveParts(pre, opening, body, closing, rest);
    SectionAt(s, opening, closing, |pre|, |pre + opening + body|, 1, 3);
  }

  lemma TwoSplits(head: string, b: string, a: string, rest: string)
    ensures var s := head + BidsOpen + b + BidsClose + AsksOpen[2..] + a + AsksClose + rest;
            s == head + BidsOpen + b + BidsClose + (AsksOpen[2..] + a + AsksClose + rest) &&
            s == (head + BidsOpen + b + BidsClose[..2]) + AsksOpen + a + AsksClose + rest
  {
    var x := head + BidsOpen + b;
    assert x + BidsClose + AsksOpen[2..] == x + BidsClose[..2] + AsksOpen;
  }

  lemma BothSections(s: string, head: string, b: string, a: string, rest: string)
    requires s == head + BidsOpen + b + BidsClose + AsksOpen[2..] + a + AsksClose + rest && |s| < NPOS
    requires Without(head, 'a') && Without(head, 'b') && Plain(a) && Plain(b)
    ensures Section(s, BidsOpen, BidsClose) == Some(b)
    ensures Section(s, AsksOpen, AsksClose) == Some(a)
  {
    TwoSplits(head, b, a, rest);
    SectionIs(s, head, BidsOpen, b, BidsClose, AsksOpen[2..] + a + AsksClose + rest);
    AsksSection(s, head, b, a, rest);
  }

  lemma AsksSection(s: string, head: string, b: string, a: string, rest: string)
    requires s == (head + BidsOpen + b + BidsClose[..2]) + AsksOpen + a + AsksClose + rest && |s| < NPOS
    requires Without(head, 'a') && Plain(a) && Plain(b)
    ensures Section(s, AsksOpen, AsksClose) == Some(a)
  {
    SectionIs(s, head + BidsOpen + b + BidsClose[..2], AsksOpen, a, AsksClose, rest);
  }

  // Both arrays are cut out of the section as they were rendered.
  lemma SectionsAreFound(head: string, bids: seq<Level>, asks: seq<Level>, rest: string)
    requires Without(head, 'a') && Without(head, 'b') && |DataText(head, bids, asks, rest)| < NPOS
    ensures Section(DataText(head, bids, asks, rest), BidsOpen, BidsClose) == Some(Render(bids))
    ensures Section(DataText(head, bids, asks, rest), AsksOpen, AsksClose) == Some(Render(asks))
  {
    RenderIsPlain(bids);
    RenderIsPlain(asks);
    BothSections(DataText(head, bids, asks, rest), head, Render(bids), Render(asks), rest);
  }

  // ------------------------------------------------- since the last snapshot

  // A message as the exchange means it: lists of levels, between the fields
  // that come before and after them.
  datatype Feed =
    | FullBook(head: string, bids: seq<Level>, asks: seq<Level>, rest: string)
    | Change(head: string, bids: seq<Level>, asks: seq<Level>, rest: string)
    | Noise(data: string)

  function MessageOf(f: Feed): Message {
    match f
    case FullBook(h, b, a, r) => Message(Snapshot, DataText(h, b, a, r))
    case Change(h, b, a, r) => Message(Delta, DataText(h, b, a, r))
    case Noise(d) => Message(UnknownType, d)
  }

  // The field before the arrays holds an upper-case symbol.
  predicate Fits(f: Feed) {
    |MessageOf(f).data| < NPOS && (f.Noise? || (Without(f.head, 'a') && Without(f.head, 'b')))
  }

  predicate AllFit(feed: seq<Feed>) { forall i :: 0 <= i < |feed| ==> Fits(feed[i]) }

  // The book that parsing the feed leaves, from whatever book there was.
  function BookAfter(book: Book, feed: seq<Feed>): Book
    requires AllFit(feed)
  {
    if feed == [] then book
    else
      var last := feed[|feed| - 1];
      assert Fits(last);
      Handle(BookAfter(book, feed[..|feed| - 1]), MessageOf(last)).0
  }

  // The updates of each side since the last full book; None before the first.
  function Since(feed: seq<Feed>): Option<(seq<Update>, seq<Update>)> {
    if feed == [] then None
    else
      var before, last := Since(feed[..|feed| - 1]), feed[|feed| - 1];
      match last
      case FullBook(_, b, a, _) => Some((Updates(b), Updates(a)))
      case Change(_, b, a, _) =>
        if before.None? then None
        else Some((before.value.0 + Updates(b), before.value.1 + Updates(a)))
      case Noise(_) => before
  }

  // The volume that the last update of a price gave it.
  function LastVolume(us: seq<Update>, price: real): Option<real> {
    if us == [] then None
    else if us[|us| - 1].price == price then Some(us[|us| - 1].volume)
    else LastVolume(us[..|us| - 1], price)
  }

  // The side holds exactly the prices whose last update had a volume.
  ghost predicate Reflects(side: Side, us: seq<Update>) {
    forall p :: (p in side <==> LastVolume(us, p).Some? && LastVolume(us, p).value != 0.0) &&
                (p in side ==> side[p] == LastVolume(us, p).value)
  }

  lemma {:induction false} ApplyAllReflects(us: seq<Update>)
    ensures Reflects(ApplyAll(map[], us), us)
  {
    if us != [] {
      ApplyAllReflects(us[..|us| - 1]);
    }
  }

  lemma {:induction false} ApplyConcat(side: Side, a: seq<Update>, b: seq<Update>)
    ensures ApplyAll(side, a + b) == ApplyAll(ApplyAll(side, a), b)
  {
    if b == [] {
      assert a + b == a;
    } else {
      ApplyConcat(side, a, b[..|b| - 1]);
      assert (a + b)[..|a + b| - 1] == a + b[..|b| - 1];
    }
  }

  lemma TextApplies(levels: seq<Level>, side: Side)
    requires |Render(levels)| < NPOS
    ensures ParseText(Some(Render(levels)), side) == Parsed(ApplyAll(side, Updates(levels)), true)
  {
    if levels == [] {
      assert Updates(levels) == [];
    } else {
      ParsingAppliesLevels(levels, side);
    }
  }

  // A message applies its levels to the book, or to an empty one.
  lemma {:induction false} MessageApplies(book: Book, f: Feed)
    requires Fits(f) && !f.Noise?
    ensures var start := if f.FullBook? then Book(map[], map[]) else book;
            Handle(book, MessageOf(f)) ==
            (Book(ApplyAll(start.bids, Updates(f.bids)), ApplyAll(start.asks, Updates(f.asks))), true)
  {
    var start := if f.FullBook? then Book(map[], map[]) else book;
    SectionsAreFound(f.head, f.bids, f.asks, f.rest);
    TextApplies(f.bids, start.bids);
    TextApplies(f.asks, start.asks);
  }

  lemma {:induction false} BookIsFoldSinceSnapshot(book: Book, feed: seq<Feed>)
    requires AllFit(feed) && Since(feed).Some?
    ensures BookAfter(book, feed) ==
            Book(ApplyAll(map[], Since(feed).value.0), ApplyAll(map[], Since(feed).value.1))
  {
    var prefix, last := feed[..|feed| - 1], feed[|feed| - 1];
    assert Fits(last);
    if !last.Noise? {
      MessageApplies(BookAfter(book, prefix), last);
    }
    if !last.FullBook? {
      BookIsFoldSinceSnapshot(book, prefix);
    }
    if last.Change? {
      ApplyConcat(map[], Since(prefix).value.0, Updates(last.bids));
      ApplyConcat(map[], Since(prefix).value.1, Updates(last.asks));
    }
  }

  // After a full book and any changes the parsed book holds, on each side,
  // exactly the prices whose last update since then had a volume, with that
  // volume and never zero, whatever the book was before.
  lemma {:induction false} BookReflectsFeed(book: Book, feed: seq<Feed>)
    requires AllFit(feed) && Since(feed).Some?
    ensures Reflects(BookAfter(book, feed).bids, Since(feed).value.0)
    ensures Reflects(BookAfter(book, feed).asks, Since(feed).value.1)
  {
    BookIsFoldSinceSnapshot(book, feed);
    ApplyAllReflects(Since(feed).value.0);
    ApplyAllReflects(Since(feed).value.1);
  }
}
