/**
 The planning assistant's two text helpers: `bounded`, which cuts a prompt to a number of UTF-8
 bytes, and `chunks`, which splits an answer into message deltas.
 */
module PlanningAssistant {
  import opened Wrappers
  import opened Utf8

  /** The characters that count as white space when a text is stripped. */
  predicate IsSpace(c: char) {
    var n := c as int;
    || 0x09 <= n <= 0x0D || 0x1C <= n <= 0x20 || n == 0x85 || n == 0xA0 || n == 0x1680
    || 0x2000 <= n <= 0x200A || n == 0x2028 || n == 0x2029 || n == 0x202F || n == 0x205F || n == 0x3000
  }

  predicate IsBlank(text: string) {
    forall i | 0 <= i < |text| :: IsSpace(text[i])
  }

  function Min(a: nat, b: nat): nat {
    if a <= b then a else b
  }

  function Bounded(text: string, maximum: nat): Result<string, string> {
    if IsBlank(text) then Err("run input is empty")
    else
      var encoded := Encode(text);
      Ok(DecodeIgnore(encoded[..Min(maximum, |encoded|)]))
  }

  /** The longest prefix, in characters, whose encoding has at most maximum bytes. */
  ghost predicate IsLongestFittingPrefix(prefix: string, text: string, maximum: nat) {
    && prefix <= text
    && Size(prefix) <= maximum
    && forall k | |prefix| < k <= |text| :: Size(text[..k]) > maximum
  }

  /** A character cut in the middle leaves no character behind. */
  lemma {:induction false} CutCharIsDropped(c: char, n: nat)
    requires n < |EncodeChar(c)|
    ensures DecodeIgnore(EncodeChar(c)[..n]) == ""
  {
    var e := EncodeChar(c);
    EncodedCharIsRead(c, []);
    assert e + [] == e;
    if n > 0 {
      var cut := e[..n];
      assert cut[0] == e[0];
      assert WellFormedPrefix(cut) == n;
      assert cut[n..] == [];
    }
  }

  lemma {:induction false} TruncatedDecode(text: string, n: nat)
    requires n <= |Encode(text)|
    ensures IsLongestFittingPrefix(DecodeIgnore(Encode(text)[..n]), text, n)
  {
    var encoded := Encode(text);
    if text == "" {
      assert encoded[..n] == [];
    } else {
      var e, rest := EncodeChar(text[0]), Encode(text[1..]);
      if n < |e| {
        assert encoded[..n] == e[..n];
        CutCharIsDropped(text[0], n);
        forall k | 0 < k <= |text| ensures Size(text[..k]) > n {
          assert text[..k][1..] == text[1..][..k - 1];
        }
      } else {
        var m := n - |e|;
        assert encoded[..n] == e + rest[..m];
        EncodedCharIsRead(text[0], rest[..m]);
        assert (e + rest[..m])[|e|..] == rest[..m];
        TruncatedDecode(text[1..], m);
        var tail := DecodeIgnore(rest[..m]);
        assert DecodeIgnore(encoded[..n]) == [text[0]] + tail;
        assert ([text[0]] + tail)[1..] == tail;
        forall k | |tail| + 1 < k <= |text| ensures Size(text[..k]) > n {
          assert text[..k][1..] == text[1..][..k - 1];
        }
      }
    }
  }

  lemma SpacesAre(c: char)
    ensures IsSpace(c) <==>
              c as int in {9, 10, 11, 12, 13, 28, 29, 30, 31, 32, 133, 160, 5760, 8192, 8193, 8194, 8195, 8196, 8197,
                           8198, 8199, 8200, 8201, 8202, 8232, 8233, 8239, 8287, 12288}
  {
  }

  /**
   `bounded` fails exactly on blank texts, and otherwise returns the longest character prefix
   that fits: never a broken character, never one character too few.
   */
  lemma BoundedIsExact(text: string, maximum: nat)
    ensures Bounded(text, maximum).Err? <==> IsBlank(text)
    ensures Bounded(text, maximum).Ok? ==>
              IsLongestFittingPrefix(Bounded(text, maximum).value, text, maximum)
  {
    if !IsBlank(text) {
      var n := Min(maximum, Size(text));
      TruncatedDecode(text, n);
      var prefix := DecodeIgnore(Encode(text)[..n]);
      assert text[..|text|] == text;
    }
  }

  // ---------------------------------------------------------------------------------------------
  // chunks

  /** A split of text into consecutive pieces of at most maximum bytes, or of one character. */
  ghost predicate IsSplit(pieces: seq<string>, text: string, maximum: nat) {
    && Concat(pieces) == text
    && forall i | 0 <= i < |pieces| :: Size(pieces[i]) <= maximum || |pieces[i]| == 1
  }

  /** Piece i starts with a character that its predecessor could not have taken as well. */
  ghost predicate HadToStart(pieces: seq<string>, i: nat, maximum: nat)
    requires 0 < i < |pieces|
  {
    pieces[i] != "" && Size(pieces[i - 1] + [pieces[i][0]]) > maximum
  }

  ghost predicate IsGreedy(pieces: seq<string>, maximum: nat) {
    && (forall i | 0 <= i < |pieces| :: pieces[i] != "")
    && (forall i | 0 < i < |pieces| :: HadToStart(pieces, i, maximum))
  }

  lemma GreedyTail(pieces: seq<string>, maximum: nat)
    requires IsGreedy(pieces, maximum) && pieces != []
    ensures IsGreedy(pieces[1..], maximum)
  {
    forall i | 0 < i < |pieces[1..]| ensures HadToStart(pieces[1..], i, maximum) {
      assert HadToStart(pieces, i + 1, maximum);
    }
  }

  /**
   Greedy stays ahead: when a greedy split covers a suffix of what another split covers, it needs
   no more pieces. The part before the suffix is what the other split is behind by.
   */
  lemma {:induction false} GreedyStaysAhead(greedy: seq<string>, pieces: seq<string>, behind: string, maximum: nat)
    requires IsGreedy(greedy, maximum)
    requires IsSplit(pieces, behind + Concat(greedy), maximum)
    ensures |greedy| <= |pieces|
    decreases |pieces|
  {
    if greedy != [] && pieces != [] {
      var piece, rest := pieces[0], pieces[1..];
      var text := behind + Concat(greedy);
      assert text == piece + Concat(rest);
      assert text[..|piece|] == piece && text[|piece|..] == Concat(rest);
      if |piece| <= |behind| {
        assert text[|piece|..] == behind[|piece|..] + Concat(greedy);
        GreedyStaysAhead(greedy, rest, behind[|piece|..], maximum);
      } else {
        var taken := |piece| - |behind|;
        if taken > |greedy[0]| {
          PieceWouldOverflow(greedy, piece, behind, maximum);
        }
        assert text[|piece|..] == greedy[0][taken..] + Concat(greedy[1..]);
        GreedyTail(greedy, maximum);
        GreedyStaysAhead(greedy[1..], rest, greedy[0][taken..], maximum);
      }
    }
  }

  /** A piece that reaches past a greedy piece into the next one does not fit. */
  lemma PieceWouldOverflow(greedy: seq<string>, piece: string, behind: string, maximum: nat)
    requires IsGreedy(greedy, maximum) && greedy != []
    requires piece <= behind + Concat(greedy) && |piece| > |behind| + |greedy[0]|
    ensures Size(piece) > maximum && |piece| > 1
  {
    var tail := greedy[1..];
    assert Concat(greedy) == greedy[0] + Concat(tail);
    if tail == [] {
      assert false;
    }
    assert Concat(tail) == greedy[1] + Concat(tail[1..]);
    assert HadToStart(greedy, 1, maximum);
    var overfull := greedy[0] + [greedy[1][0]];
    var i := |behind| + |overfull|;
    assert behind + overfull == piece[..i];
    assert piece == piece[..i] + piece[i..];
    EncodeConcat(behind, overfull);
    EncodeConcat(piece[..i], piece[i..]);
  }

  lemma GreedyIsOptimal(greedy: seq<string>, pieces: seq<string>, maximum: nat)
    requires IsGreedy(greedy, maximum)
    requires IsSplit(pieces, Concat(greedy), maximum)
    ensures |greedy| <= |pieces|
  {
    assert "" + Concat(greedy) == Concat(greedy);
    GreedyStaysAhead(greedy, pieces, "", maximum);
  }

  /** The next piece would start with a character that its predecessor could not take. */
  ghost predicate CannotMerge(yielded: seq<string>, first: char, maximum: nat) {
    yielded != [] ==> Size(yielded[|yielded| - 1] + [first]) > maximum
  }

  /** What `chunks` has yielded so far is a greedy, fitting split of what it has consumed. */
  ghost predicate Yielded(yielded: seq<string>, text: string, maximum: nat) {
    IsGreedy(yielded, maximum) && IsSplit(yielded, text, maximum)
  }

  lemma YieldOne(yielded: seq<string>, piece: string, text: string, maximum: nat)
    requires Yielded(yielded, text, maximum)
    requires piece != "" && (Size(piece) <= maximum || |piece| == 1)
    requires CannotMerge(yielded, piece[0], maximum)
    ensures Yielded(yielded + [piece], text + piece, maximum)
  {
    ConcatAppend(yielded, piece);
    var all := yielded + [piece];
    forall i | 0 < i < |all| ensures HadToStart(all, i, maximum) {
      if i < |yielded| {
        assert HadToStart(yielded, i, maximum);
      }
    }
  }

  /** The loop's state: current is what it has not yielded of the text consumed so far. */
  ghost predicate ConsumedTo(yielded: seq<string>, flushed: string, current: string, consumed: string, maximum: nat) {
    && flushed + current == consumed
    && Yielded(yielded, flushed, maximum)
    && (Size(current) <= maximum || |current| <= 1)
    && (if current == "" then yielded == [] else CannotMerge(yielded, current[0], maximum))
  }

  ghost predicate Consumed(yielded: seq<string>, current: string, consumed: string, maximum: nat) {
    exists flushed :: ConsumedTo(yielded, flushed, current, consumed, maximum)
  }

  lemma ConsumeNone(value: string, maximum: nat)
    ensures Consumed([], "", value[..0], maximum)
  {
    assert ConsumedTo([], "", "", value[..0], maximum);
  }

  lemma ConsumeOne(yielded: seq<string>, current: string, consumed: string, next: char, maximum: nat)
    requires Consumed(yielded, current, consumed, maximum)
    ensures var full := current != "" && Size(current) + Size([next]) > maximum;
            var kept := if full then "" else current;
            && Size(kept + [next]) == Size(kept) + Size([next])
            && Consumed(if full then yielded + [current] else yielded, kept + [next], consumed + [next], maximum)
  {
    EncodeConcat(current, [next]);
    var flushed :| ConsumedTo(yielded, flushed, current, consumed, maximum);
    if current != "" && Size(current) + Size([next]) > maximum {
      YieldOne(yielded, current, flushed, maximum);
      assert ConsumedTo(yielded + [current], flushed + current, "" + [next], consumed + [next], maximum);
    } else {
      assert ConsumedTo(yielded, flushed, current + [next], consumed + [next], maximum);
    }
  }

  /** What the agent relies on: sendable pieces, in order, and as few as possible. */
  ghost predicate IsBestSplit(pieces: seq<string>, value: string, maximum: nat) {
    && Concat(pieces) == value
    && (forall i | 0 <= i < |pieces| :: pieces[i] != "" && (Size(pieces[i]) <= maximum || |pieces[i]| == 1))
    && (maximum >= 4 ==> forall i | 0 <= i < |pieces| :: Size(pieces[i]) <= maximum)
    && (forall other | IsSplit(other, value, maximum) :: |pieces| <= |other|)
  }

  lemma GreedyIsBest(yielded: seq<string>, value: string, maximum: nat)
    requires Yielded(yielded, value, maximum)
    ensures IsBestSplit(yielded, value, maximum)
  {
    forall other | IsSplit(other, value, maximum) ensures |yielded| <= |other| {
      GreedyIsOptimal(yielded, other, maximum);
    }
    forall i | 0 <= i < |yielded| && maximum >= 4 ensures Size(yielded[i]) <= maximum {
      assert Size(yielded[i]) <= 4 * |yielded[i]|;
    }
  }

  lemma YieldRest(yielded: seq<string>, current: string, value: string, maximum: nat)
    requires Consumed(yielded, current, value, maximum)
    ensures IsBestSplit(if current != "" then yielded + [current] else yielded, value, maximum)
  {
    var flushed :| ConsumedTo(yielded, flushed, current, value, maximum);
    if current != "" {
      YieldOne(yielded, current, flushed, maximum);
      GreedyIsBest(yielded + [current], value, maximum);
    } else {
      GreedyIsBest(yielded, value, maximum);
    }
  }

  /**
   The pieces are non-empty, concatenate to the text, fit the bound (always, once the bound admits
   every character), and no split of the text into fitting pieces has fewer of them.
   */
  method Chunks(value: string, maximum: nat) returns (yielded: seq<string>)
    ensures IsBestSplit(yielded, value, maximum)
  {
    yielded := [];
    var current, size := "", 0;
    hide Consumed;
    ConsumeNone(value, maximum);
    for i := 0 to |value|
      invariant size == Size(current)
      invariant Consumed(yielded, current, value[..i], maximum)
    {
      var character := value[i];
      var encodedSize := Size([character]);
      ConsumeOne(yielded, current, value[..i], character, maximum);
      assert value[..i + 1] == value[..i] + [character];
      if current != "" && size + encodedSize > maximum {
        yielded := yielded + [current];
        current, size := "", 0;
      }
      current, size := current + [character], size + encodedSize;
    }
    assert value[..|value|] == value;
    YieldRest(yielded, current, value, maximum);
    if current != "" {
      yielded := yielded + [current];
    }
  }
}
