/**
 * The CLIP byte-pair tokenizer of the diffusion pipeline: its vocabulary and
 * merge ranks, the pair-merging loop run on every pre-split token, and the
 * fixed-length id sequence it hands to the text transformer.
 *
 * The merge lines (already split in two) and the byte-to-unicode table are
 * parameters, and so is the regular-expression pre-splitter.
 */
module Tokenizer {
  import opened Wrappers
  import Text

  type Pair = (string, string)

  const START_OF_TEXT := "<|startoftext|>"
  const END_OF_TEXT := "<|endoftext|>"
  const END_OF_WORD := "</w>"

  datatype Config = Config(maxPositionEmbeddings: nat, padWith: Option<string>)

  /** The configuration the diffusion pipeline uses unless told otherwise. */
  function DefaultConfig(): (c: Config)
    ensures c.maxPositionEmbeddings == 77 && c.padWith == Some("!")
  {
    Config(77, Some("!"))
  }

  // ---------------------------------------------------------------------
  // Vocabulary and ranks

  /** Each item mapped to its index, a later index winning over an earlier one. */
  function IndexOf<T(==)>(xs: seq<T>): map<T, nat>
    decreases |xs|
  {
    if xs == [] then map[] else IndexOf(xs[..|xs| - 1])[xs[|xs| - 1] := |xs| - 1]
  }

  /** An item is indexed exactly when it occurs, and then at its last occurrence. */
  lemma {:induction false} IndexOfLast<T>(xs: seq<T>, x: T)
    ensures x in IndexOf(xs) <==> x in xs
    ensures x in IndexOf(xs) ==>
      IndexOf(xs)[x] < |xs| && xs[IndexOf(xs)[x]] == x
      && forall j :: IndexOf(xs)[x] < j < |xs| ==> xs[j] != x
    decreases |xs|
  {
    if xs != [] {
      var init := xs[..|xs| - 1];
      IndexOfLast(init, x);
      assert xs == init + [xs[|xs| - 1]];
    }
  }

  /** No two items share an index. */
  lemma IndexOfInjective<T>(xs: seq<T>)
    ensures forall x, y | x in IndexOf(xs) && y in IndexOf(xs) && IndexOf(xs)[x] == IndexOf(xs)[y] :: x == y
  {
    forall x, y | x in IndexOf(xs) && y in IndexOf(xs) && IndexOf(xs)[x] == IndexOf(xs)[y]
      ensures x == y
    {
      IndexOfLast(xs, x);
      IndexOfLast(xs, y);
    }
  }

  function Suffixed(bytes: seq<string>): seq<string>
  {
    seq(|bytes|, i requires 0 <= i < |bytes| => bytes[i] + END_OF_WORD)
  }

  function Joined(merges: seq<Pair>): seq<string>
  {
    seq(|merges|, i requires 0 <= i < |merges| => merges[i].0 + merges[i].1)
  }

  /** The vocabulary: bytes, end-of-word bytes, merge results, then the two markers. */
  function Vocab(bytes: seq<string>, merges: seq<Pair>): seq<string>
  {
    bytes + Suffixed(bytes) + Joined(merges) + [START_OF_TEXT, END_OF_TEXT]
  }

  /** The vocabulary's size, and the markers are encoded as its last two indices. */
  lemma VocabLayout(bytes: seq<string>, merges: seq<Pair>)
    ensures var v := Vocab(bytes, merges);
      |v| == 2 * |bytes| + |merges| + 2
      && START_OF_TEXT in IndexOf(v) && IndexOf(v)[START_OF_TEXT] == |v| - 2
      && END_OF_TEXT in IndexOf(v) && IndexOf(v)[END_OF_TEXT] == |v| - 1
  {
    var v := Vocab(bytes, merges);
    assert v[|v| - 2] == START_OF_TEXT && v[|v| - 1] == END_OF_TEXT;
    IndexOfLast(v, START_OF_TEXT);
    IndexOfLast(v, END_OF_TEXT);
  }

  /** The vocabulary as the creation code pushes it, with the two marker indices. */
  method BuildVocab(bytes: seq<string>, merges: seq<Pair>) returns (vocab: seq<string>, sot: nat, eot: nat)
    ensures vocab == Vocab(bytes, merges)
    ensures sot == 2 * |bytes| + |merges| && eot == sot + 1
  {
    vocab := [];
    for i := 0 to |bytes|
      invariant vocab == bytes[..i]
    {
      vocab := vocab + [bytes[i]];
    }
    for i := 0 to |bytes|
      invariant vocab == bytes + Suffixed(bytes)[..i]
    {
      vocab := vocab + [bytes[i] + END_OF_WORD];
    }
    for i := 0 to |merges|
      invariant vocab == bytes + Suffixed(bytes) + Joined(merges)[..i]
    {
      vocab := vocab + [merges[i].0 + merges[i].1];
    }
    sot := |vocab|;
    vocab := vocab + [START_OF_TEXT];
    eot := |vocab|;
    vocab := vocab + [END_OF_TEXT];
  }

  // ---------------------------------------------------------------------
  // Pairs, merging and the byte-pair word

  /** The adjacent pairs of a word, left to right. */
  function AdjacentPairs(word: seq<string>): seq<Pair>
  {
    seq(if |word| == 0 then 0 else |word| - 1, i requires 0 <= i < |word| - 1 => (word[i], word[i + 1]))
  }

  /** The set of adjacent pairs, collected in one pass over the word. */
  method GetPairs(word: seq<string>) returns (pairs: set<Pair>)
    ensures forall p :: p in pairs <==> p in AdjacentPairs(word)
    ensures |word| <= 1 ==> pairs == {}
  {
    pairs := {};
    for i := 0 to |word|
      invariant forall p :: p in pairs <==> p in AdjacentPairs(word)[..if i == 0 then 0 else i - 1]
    {
      if i > 0 {
        pairs := pairs + {(word[i - 1], word[i])};
        assert AdjacentPairs(word)[..i] == AdjacentPairs(word)[..i - 1] + [(word[i - 1], word[i])];
      }
    }
    assert AdjacentPairs(word)[..if |word| == 0 then 0 else |word| - 1] == AdjacentPairs(word);
  }

  /** `best` is the ranked pair of `pairs` with the smallest rank, or none is ranked. */
  ghost predicate IsLowest(best: Option<Pair>, pairs: set<Pair>, ranks: map<Pair, nat>)
  {
    match best
    case None => forall p | p in pairs :: p !in ranks
    case Some(b) => b in pairs && b in ranks && forall p | p in pairs && p in ranks :: ranks[b] <= ranks[p]
  }

  ghost predicate Injective(ranks: map<Pair, nat>)
  {
    forall p, q | p in ranks && q in ranks && ranks[p] == ranks[q] :: p == q
  }

  /** With distinct ranks, the lowest-ranked pair does not depend on how it is looked for. */
  lemma LowestUnique(a: Option<Pair>, b: Option<Pair>, pairs: set<Pair>, ranks: map<Pair, nat>)
    requires Injective(ranks) && IsLowest(a, pairs, ranks) && IsLowest(b, pairs, ranks)
    ensures a == b
  {
    if a.Some? && b.Some? {
      assert ranks[a.value] == ranks[b.value];
    }
  }

  /** The lowest-ranked pair of a pair list; the first one among equal ranks. */
  function Lowest(ps: seq<Pair>, ranks: map<Pair, nat>): (r: Option<Pair>)
    ensures r.Some? ==> r.value in ps && r.value in ranks
  {
    if ps == [] then None
    else
      var rest := Lowest(ps[1..], ranks);
      if ps[0] in ranks && (rest.None? || ranks[ps[0]] < ranks[rest.value]) then Some(ps[0]) else rest
  }

  lemma {:induction false} LowestIsLowest(ps: seq<Pair>, ranks: map<Pair, nat>, pairs: set<Pair>)
    requires forall p :: p in pairs <==> p in ps
    ensures IsLowest(Lowest(ps, ranks), pairs, ranks)
  {
    if ps != [] {
      var tail := set p | p in ps[1..];
      LowestIsLowest(ps[1..], ranks, tail);
      assert forall p :: p in pairs <==> p == ps[0] || p in tail;
    }
  }

  /** One left-to-right pass joining each non-overlapping occurrence of `first, second`. */
  function Merge(word: seq<string>, first: string, second: string): (r: seq<string>)
    ensures |r| <= |word|
    decreases |word|
  {
    if |word| == 0 then []
    else if |word| >= 2 && word[0] == first && word[1] == second then
      [first + second] + Merge(word[2..], first, second)
    else [word[0]] + Merge(word[1..], first, second)
  }

  lemma {:induction false} MergeShrinksAt(word: seq<string>, first: string, second: string, i: nat)
    requires i + 1 < |word| && word[i] == first && word[i + 1] == second
    ensures |Merge(word, first, second)| < |word|
    decreases |word|
  {
    if !(word[0] == first && word[1] == second) {
      MergeShrinksAt(word[1..], first, second, i - 1);
    }
  }

  /** Merging a pair that occurs in the word makes it strictly shorter. */
  lemma MergeShrinks(word: seq<string>, first: string, second: string)
    requires (first, second) in AdjacentPairs(word)
    ensures |Merge(word, first, second)| < |word|
  {
    var ps := AdjacentPairs(word);
    var i :| 0 <= i < |ps| && ps[i] == (first, second);
    MergeShrinksAt(word, first, second, i);
  }

  /** The symbols of a word spelled out one after the other. */
  function Concat(ws: seq<string>): string
  {
    if ws == [] then "" else ws[0] + Concat(ws[1..])
  }

  lemma {:induction false} ConcatAppend(a: seq<string>, b: seq<string>)
    ensures Concat(a + b) == Concat(a) + Concat(b)
  {
    if a == [] {
      assert a + b == b;
    } else {
      assert (a + b)[1..] == a[1..] + b;
      ConcatAppend(a[1..], b);
    }
  }

  /** Merging never changes what the word spells. */
  lemma {:induction false} MergeSpells(word: seq<string>, first: string, second: string)
    ensures Concat(Merge(word, first, second)) == Concat(word)
    decreases |word|
  {
    if |word| >= 2 && word[0] == first && word[1] == second {
      MergeSpells(word[2..], first, second);
      assert word[1..][1..] == word[2..];
    } else if |word| > 0 {
      MergeSpells(word[1..], first, second);
    }
  }

  /** The merge loop: join the lowest-ranked pair until one symbol or no ranked pair is left. */
  function BpeWord(word: seq<string>, ranks: map<Pair, nat>): seq<string>
    decreases |word|
  {
    if |word| <= 1 then word
    else
      match Lowest(AdjacentPairs(word), ranks)
      case None => word
      case Some(p) =>
        MergeShrinks(word, p.0, p.1);
        BpeWord(Merge(word, p.0, p.1), ranks)
  }

  /** The merged word spells the same text, is no longer, and has no ranked pair left. */
  lemma {:induction false} BpeWordFinal(word: seq<string>, ranks: map<Pair, nat>)
    ensures var r := BpeWord(word, ranks);
      Concat(r) == Concat(word) && |r| <= |word|
      && (|r| <= 1 || forall p | p in AdjacentPairs(r) :: p !in ranks)
    decreases |word|
  {
    if |word| > 1 {
      var ps := AdjacentPairs(word);
      match Lowest(ps, ranks)
      case None =>
        LowestIsLowest(ps, ranks, set p | p in ps);
      case Some(p) =>
        MergeShrinks(word, p.0, p.1);
        MergeSpells(word, p.0, p.1);
        BpeWordFinal(Merge(word, p.0, p.1), ranks);
    }
  }

  /** Each character of a text as a symbol of its own. */
  function Chars(s: string): (cs: seq<string>)
    ensures |cs| == |s| && forall i :: 0 <= i < |s| ==> cs[i] == [s[i]]
  {
    seq(|s|, i requires 0 <= i < |s| => [s[i]])
  }

  /** The characters of a token, the last one marked as ending the word. */
  function Initial(token: string): (w: seq<string>)
    ensures |w| == |token|
  {
    if token == [] then []
    else
      var chars := Chars(token);
      chars[|token| - 1 := chars[|token| - 1] + END_OF_WORD]
  }

  lemma {:induction false} ConcatChars(s: string)
    ensures Concat(Chars(s)) == s
  {
    if s != [] {
      assert Chars(s)[1..] == Chars(s[1..]);
      ConcatChars(s[1..]);
    }
  }

  /** The initial word spells the token followed by the end-of-word marker. */
  lemma InitialSpells(token: string)
    requires token != []
    ensures Concat(Initial(token)) == token + END_OF_WORD
  {
    var n := |token|;
    var front, last := Chars(token)[..n - 1], [token[n - 1]];
    InitialParts(token);
    ConcatChars(token);
    ConcatAppend(front, [last]);
    ConcatAppend(front, [last + END_OF_WORD]);
    assert Concat([last]) == last;
    assert Concat([last + END_OF_WORD]) == last + END_OF_WORD;
  }

  /** The initial word differs from the token's characters only in its last symbol. */
  lemma InitialParts(token: string)
    requires token != []
    ensures var n := |token|;
      Chars(token) == Chars(token)[..n - 1] + [[token[n - 1]]] &&
      Initial(token) == Chars(token)[..n - 1] + [[token[n - 1]] + END_OF_WORD]
  {
    var n := |token|;
    assert Chars(token) == Chars(token)[..n - 1] + [Chars(token)[n - 1]];
  }

  /** The ids of the symbols found in the encoder, unknown symbols dropped. */
  function Encoded(ws: seq<string>, encoder: map<string, nat>): (ids: seq<nat>)
    ensures |ids| <= |ws|
  {
    if ws == [] then []
    else (if ws[0] in encoder then [encoder[ws[0]]] else []) + Encoded(ws[1..], encoder)
  }

  /** Symbol lookup for each id; every id must be known. */
  function Lookup(ids: seq<nat>, decoder: map<nat, string>): seq<string>
    requires forall t | t in ids :: t in decoder
  {
    if ids == [] then [] else [decoder[ids[0]]] + Lookup(ids[1..], decoder)
  }

  /** Decoding the ids of known symbols gives the symbols back. */
  lemma {:induction false} LookupEncoded(ws: seq<string>, encoder: map<string, nat>, decoder: map<nat, string>)
    requires forall s | s in encoder :: encoder[s] in decoder && decoder[encoder[s]] == s
    requires forall s | s in ws :: s in encoder
    ensures forall t | t in Encoded(ws, encoder) :: t in decoder
    ensures Lookup(Encoded(ws, encoder), decoder) == ws
  {
    if ws != [] {
      LookupEncoded(ws[1..], encoder, decoder);
      assert Encoded(ws, encoder) == [encoder[ws[0]]] + Encoded(ws[1..], encoder);
    }
  }

  /** The ids kept in an encoding of maximum length `max`: the content cut to `max - 1`, then padding. */
  function Fit(content: seq<nat>, max: nat, pad: nat): seq<nat>
    requires max >= 1
  {
    var keep := if |content| < max - 1 then |content| else max - 1;
    content[..keep] + seq(max - keep, _ => pad)
  }

  /** An encoding has exactly `max` ids, ends with padding and starts like the content. */
  lemma FitLayout(content: seq<nat>, max: nat, pad: nat)
    requires max >= 1
    ensures var r := Fit(content, max, pad);
      |r| == max && r[max - 1] == pad
      && (forall i :: 0 <= i < max - 1 && i < |content| ==> r[i] == content[i])
      && (forall i :: |content| <= i < max ==> r[i] == pad)
  {
  }

  // ---------------------------------------------------------------------
  // The tokenizer

  class Tokenizer {
    var encoder: map<string, nat>
    var decoder: map<nat, string>
    var bpeRanks: map<Pair, nat>
    var startOfText: nat
    var endOfText: nat
    var maxPositionEmbeddings: nat
    var padWith: Option<string>

    /** The decoder inverts the encoder, and no two merges share a rank. */
    ghost predicate Valid()
      reads this
    {
      (forall s | s in encoder :: encoder[s] in decoder && decoder[encoder[s]] == s)
      && Injective(bpeRanks)
    }

    constructor Create(config: Config, bytes: seq<string>, merges: seq<Pair>)
      ensures Valid()
      ensures encoder == IndexOf(Vocab(bytes, merges)) && bpeRanks == IndexOf(merges)
      ensures startOfText == 2 * |bytes| + |merges| && endOfText == startOfText + 1
      ensures START_OF_TEXT in encoder && encoder[START_OF_TEXT] == startOfText
      ensures END_OF_TEXT in encoder && encoder[END_OF_TEXT] == endOfText
      ensures maxPositionEmbeddings == config.maxPositionEmbeddings && padWith == config.padWith
    {
      var vocab, sot, eot := BuildVocab(bytes, merges);
      var enc := IndexOf(vocab);
      IndexOfInjective(vocab);
      IndexOfInjective(merges);
      VocabLayout(bytes, merges);
      encoder := enc;
      decoder := map s | s in enc :: enc[s] := s;
      bpeRanks := IndexOf(merges);
      startOfText := sot;
      endOfText := eot;
      maxPositionEmbeddings := config.maxPositionEmbeddings;
      padWith := config.padWith;
    }

    method SetPadding(padding: Option<string>)
      requires Valid()
      modifies this
      ensures Valid() && padWith == padding
      ensures encoder == old(encoder) && decoder == old(decoder) && bpeRanks == old(bpeRanks)
      ensures startOfText == old(startOfText) && endOfText == old(endOfText)
      ensures maxPositionEmbeddings == old(maxPositionEmbeddings)
    {
      padWith := padding;
    }

    /** The lowest-ranked pair of a set, found by one scan over it. */
    method SelectLowest(pairs: set<Pair>) returns (best: Option<Pair>)
      ensures IsLowest(best, pairs, bpeRanks)
    {
      best := None;
      var rest, seen := pairs, {};
      while rest != {}
        invariant rest + seen == pairs && rest !! seen
        invariant IsLowest(best, seen, bpeRanks)
        decreases |rest|
      {
        var p :| p in rest;
        if p in bpeRanks && (best.None? || bpeRanks[p] < bpeRanks[best.value]) {
          best := Some(p);
        }
        rest, seen := rest - {p}, seen + {p};
      }
    }

    /** One merge pass over the word, advancing by two past each joined pair. */
    static method MergePair(word: seq<string>, first: string, second: string) returns (merged: seq<string>)
      ensures merged == Merge(word, first, second)
    {
      merged := [];
      var index := 0;
      while index < |word|
        invariant 0 <= index <= |word|
        invariant merged + Merge(word[index..], first, second) == Merge(word, first, second)
      {
        var rest := word[index..];
        if index + 1 < |word| && word[index] == first && word[index + 1] == second {
          assert rest[2..] == word[index + 2..];
          assert Merge(rest, first, second) == [first + second] + Merge(word[index + 2..], first, second);
          merged := merged + [first + second];
          index := index + 2;
        } else {
          assert rest[1..] == word[index + 1..];
          assert Merge(rest, first, second) == [word[index]] + Merge(word[index + 1..], first, second);
          merged := merged + [word[index]];
          index := index + 1;
        }
      }
    }

    /** The ids a pre-split token contributes to an encoding. */
    ghost function BpeIds(token: string): seq<nat>
      reads this
    {
      Encoded(BpeWord(Initial(token), bpeRanks), encoder)
    }

    method Bpe(token: string) returns (ids: seq<nat>)
      requires Valid()
      ensures ids == BpeIds(token)
    {
      if token == [] {
        return [];
      }
      var word := Chars(token);
      word := word[|word| - 1 := word[|word| - 1] + END_OF_WORD];
      assert word == Initial(token);
      while |word| > 1
        invariant BpeWord(word, bpeRanks) == BpeWord(Initial(token), bpeRanks)
        decreases |word|
      {
        var pairs := GetPairs(word);
        var best := SelectLowest(pairs);
        LowestIsLowest(AdjacentPairs(word), bpeRanks, pairs);
        LowestUnique(best, Lowest(AdjacentPairs(word), bpeRanks), pairs, bpeRanks);
        if best.None? {
          break;
        }
        var (first, second) := best.value;
        MergeShrinks(word, first, second);
        word := MergePair(word, first, second);
      }
      ids := Encoded(word, encoder);
    }

    /** The id used for padding; none when the padding text has no id. */
    ghost function PadId(): Option<nat>
      reads this
    {
      match padWith
      case None => Some(endOfText)
      case Some(p) => if p in encoder then Some(encoder[p]) else None
    }

    /** The ids of all pre-split tokens, in order. */
    ghost function BpeAll(tokens: seq<string>): seq<nat>
      reads this
    {
      if tokens == [] then [] else BpeAll(tokens[..|tokens| - 1]) + BpeIds(tokens[|tokens| - 1])
    }

    /** Start marker, the tokens' ids, end marker. */
    ghost function Content(s: string, split: string -> seq<string>): seq<nat>
      reads this
    {
      [startOfText] + BpeAll(split(Text.Lower(s))) + [endOfText]
    }

    /**
     * Lower-case, split, merge each token, frame with the markers, cut to one
     * less than the maximum and pad up to it. No result where the code panics:
     * a maximum of zero, or a padding text with no id.
     */
    method Encode(s: string, split: string -> seq<string>) returns (r: Option<seq<nat>>)
      requires Valid()
      ensures r.Some? <==> maxPositionEmbeddings >= 1 && PadId().Some?
      ensures r.Some? ==> r.value == Fit(Content(s, split), maxPositionEmbeddings, PadId().value)
    {
      var ids := BpeTokens(split(Text.Lower(s)));
      ids := [startOfText] + ids + [endOfText];
      if maxPositionEmbeddings == 0 {
        return None;
      }
      var pad: nat;
      match padWith {
        case None =>
          pad := endOfText;
        case Some(p) =>
          if p !in encoder {
            return None;
          }
          pad := encoder[p];
      }
      ids := FitTo(ids, maxPositionEmbeddings, pad);
      return Some(ids);
    }

    /** The ids of each pre-split token in turn, appended. */
    method BpeTokens(tokens: seq<string>) returns (ids: seq<nat>)
      requires Valid()
      ensures ids == BpeAll(tokens)
    {
      ids := [];
      for i := 0 to |tokens|
        invariant ids == BpeAll(tokens[..i])
      {
        var more := Bpe(tokens[i]);
        assert tokens[..i + 1][..i] == tokens[..i];
        ids := ids + more;
      }
      assert tokens[..|tokens|] == tokens;
    }

    /** Cut to one less than the maximum, then push padding up to it. */
    static method FitTo(content: seq<nat>, max: nat, pad: nat) returns (ids: seq<nat>)
      requires max >= 1
      ensures ids == Fit(content, max, pad)
    {
      var keep := if |content| < max - 1 then |content| else max - 1;
      ids := content[..keep];
      while |ids| < max
        invariant keep <= |ids| <= max
        invariant ids == content[..keep] + seq(|ids| - keep, _ => pad)
      {
        ids := ids + [pad];
      }
    }

    /** Decoding: each id's symbol, spelled out, end-of-word markers turned to spaces. */
    function Decode(tokens: seq<nat>): (r: Option<string>)
      reads this
      ensures r.Some? <==> forall t | t in tokens :: t in decoder
    {
      if forall t | t in tokens :: t in decoder then
        Some(Text.Replace(Concat(Lookup(tokens, decoder)), END_OF_WORD, " "))
      else None
    }

    /**
     * When every merged symbol of a token is in the vocabulary, decoding its
     * ids gives the token with the end-of-word marker turned to a space.
     */
    lemma DecodeBpe(token: string)
      requires Valid() && token != []
      requires forall s | s in BpeWord(Initial(token), bpeRanks) :: s in encoder
      ensures Decode(BpeIds(token)) == Some(Text.Replace(token + END_OF_WORD, END_OF_WORD, " "))
    {
      var w := BpeWord(Initial(token), bpeRanks);
      LookupEncoded(w, encoder, decoder);
      BpeWordFinal(Initial(token), bpeRanks);
      InitialSpells(token);
    }

    /** Every encoding starts with the start marker when there is room for two ids. */
    lemma EncodingFrame(s: string, split: string -> seq<string>)
      requires maxPositionEmbeddings >= 2 && PadId().Some?
      ensures var r := Fit(Content(s, split), maxPositionEmbeddings, PadId().value);
        |r| == maxPositionEmbeddings && r[0] == startOfText && r[|r| - 1] == PadId().value
    {
      FitLayout(Content(s, split), maxPositionEmbeddings, PadId().value);
    }
  }
}
