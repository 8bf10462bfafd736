/**
 * The state of an accessible object is a vector of 32-bit words; flag number
 * `val` is bit `val % 32` of word `val / 32`.  A StateChanged notification
 * names the flag by its lower-case name, which the cache resolves against the
 * fixed table of AT-SPI state names.
 */
module StateFlags {
  import opened Atspi

  /** Index of the "manages its own descendants" flag; it lies in word 0. */
  const STATE_MANAGES_DESCENDANTS: nat := 31

  /** The AT-SPI state enumeration: upper-case flag name to flag index. */
  const STATE_TABLE: map<string, nat> := map[
    "INVALID" := 0, "ACTIVE" := 1, "ARMED" := 2, "BUSY" := 3,
    "CHECKED" := 4, "COLLAPSED" := 5, "DEFUNCT" := 6, "EDITABLE" := 7,
    "ENABLED" := 8, "EXPANDABLE" := 9, "EXPANDED" := 10, "FOCUSABLE" := 11,
    "FOCUSED" := 12, "HAS_TOOLTIP" := 13, "HORIZONTAL" := 14, "ICONIFIED" := 15,
    "MODAL" := 16, "MULTI_LINE" := 17, "MULTISELECTABLE" := 18, "OPAQUE" := 19,
    "PRESSED" := 20, "RESIZABLE" := 21, "SELECTABLE" := 22, "SELECTED" := 23,
    "SENSITIVE" := 24, "SHOWING" := 25, "SINGLE_LINE" := 26, "STALE" := 27,
    "TRANSIENT" := 28, "VERTICAL" := 29, "VISIBLE" := 30,
    "MANAGES_DESCENDANTS" := 31, "INDETERMINATE" := 32, "REQUIRED" := 33,
    "TRUNCATED" := 34, "ANIMATED" := 35, "INVALID_ENTRY" := 36,
    "SUPPORTS_AUTOCOMPLETION" := 37, "SELECTABLE_TEXT" := 38,
    "IS_DEFAULT" := 39, "VISITED" := 40, "LAST_DEFINED" := 41]

  /** ASCII upper-casing of one character. */
  function UpperChar(c: char): (r: char)
  {
    if 'a' <= c <= 'z' then (c as int - 32) as char else c
  }

  /** ASCII upper-casing of a string, as `string.upper` does for flag names. */
  function Upper(s: string): (r: string)
    ensures |r| == |s|
    ensures forall i :: 0 <= i < |s| ==> r[i] == UpperChar(s[i])
  {
    seq(|s|, i requires 0 <= i < |s| => UpperChar(s[i]))
  }

  /**
   * The flag index a StateChanged minor names.  A name missing from the
   * table makes the attribute lookup fail.
   */
  function FlagIndex(minor: string): (r: Result<nat>)
    ensures r.Ok? <==> Upper(minor) in STATE_TABLE
    ensures r.Ok? ==> r.value == STATE_TABLE[Upper(minor)]
    ensures r.Raised? ==> r.error == AttributeError
  {
    var key := Upper(minor);
    if key in STATE_TABLE then Ok(STATE_TABLE[key]) else Raised(AttributeError)
  }

  /** The bit position of flag `val` within its word. */
  function Low(val: nat): (r: bv5)
  {
    (val % 32) as bv5
  }

  /** The bit position of flag `val`, as a number. */
  lemma LowValue(val: nat)
    ensures Low(val) as int == val % 32
  {
  }

  /** Two flags of the same word sit at different bit positions. */
  lemma LowDistinct(a: nat, b: nat)
    requires a / 32 == b / 32 && a != b
    ensures Low(a) != Low(b)
  {
    LowValue(a);
    LowValue(b);
  }

  /** The word `1 << low`. */
  function Bit(low: bv5): (r: bv32)
  {
    (1 as bv32) << low
  }

  /** Whether bit `low` of a word is set. */
  predicate HasBit(w: bv32, low: bv5)
  {
    w & Bit(low) != 0
  }

  /** Whether flag `val` is set in a state vector (a missing word counts as clear). */
  predicate HasFlag(words: seq<bv32>, val: nat)
  {
    val / 32 < |words| && HasBit(words[val / 32], Low(val))
  }

  /** Setting bit `low` makes it set and keeps the word elsewhere. */
  lemma SetFacts(w: bv32, low: bv5)
    ensures HasBit(w | Bit(low), low)
    ensures (w | Bit(low)) & !Bit(low) == w & !Bit(low)
  {
  }

  /** Clearing bit `low` makes it clear and keeps the word elsewhere. */
  lemma ClearFacts(w: bv32, low: bv5)
    ensures !HasBit(w & !Bit(low), low)
    ensures (w & !Bit(low)) & !Bit(low) == w & !Bit(low)
  {
  }

  /** `w |= 1 << low` when `on`, `w &= ~(1 << low)` otherwise. */
  function WithBit(w: bv32, low: bv5, on: bool): (r: bv32)
    ensures HasBit(r, low) == on
    ensures r & !Bit(low) == w & !Bit(low)
  {
    if on then SetFacts(w, low); w | Bit(low)
    else ClearFacts(w, low); w & !Bit(low)
  }

  /** Words that agree outside bit `low` agree on every other bit. */
  lemma OtherBit(w: bv32, r: bv32, low: bv5, b: bv5)
    requires r & !Bit(low) == w & !Bit(low) && b != low
    ensures HasBit(r, b) == HasBit(w, b)
  {
  }

  /**
   * Sets (`on`) or clears flag `val`.  Indexing a word past the end of the
   * vector raises IndexError.
   */
  function SetFlag(words: seq<bv32>, val: nat, on: bool): (r: Result<seq<bv32>>)
    ensures r.Raised? <==> val / 32 >= |words|
    ensures r.Raised? ==> r.error == IndexError
    ensures r.Ok? ==> |r.value| == |words|
    ensures r.Ok? ==> HasFlag(r.value, val) == on
    ensures r.Ok? ==> forall j :: 0 <= j < |words| && j != val / 32 ==> r.value[j] == words[j]
    ensures r.Ok? ==> forall v: nat :: v != val ==> HasFlag(r.value, v) == HasFlag(words, v)
  {
    var high := val / 32;
    var low := Low(val);
    if high < |words| then
      var r := words[high := WithBit(words[high], low, on)];
      assert forall v: nat :: v != val && v / 32 == high ==> HasFlag(r, v) == HasFlag(words, v) by {
        forall v: nat | v != val && v / 32 == high
          ensures HasFlag(r, v) == HasFlag(words, v)
        {
          LowDistinct(v, val);
          OtherBit(words[high], r[high], low, Low(v));
        }
      }
      Ok(r)
    else Raised(IndexError)
  }

  /** The test the children-changed handler applies to word 0: the manages-descendants flag itself. */
  predicate ManagesDescendants(words: seq<bv32>): (b: bool)
    requires |words| > 0
    ensures b <==> HasFlag(words, STATE_MANAGES_DESCENDANTS)
  {
    HasBit(words[0], Low(STATE_MANAGES_DESCENDANTS))
  }

  /** Setting (or clearing) a flag twice is the same as doing it once. */
  lemma SetFlagIdempotent(words: seq<bv32>, val: nat, on: bool)
    requires SetFlag(words, val, on).Ok?
    ensures SetFlag(SetFlag(words, val, on).value, val, on) == SetFlag(words, val, on)
  {
    var once := SetFlag(words, val, on).value;
    var high, low := val / 32, Low(val);
    assert WithBit(once[high], low, on) == once[high];
    assert once[high := once[high]] == once;
  }

  /** On one word: setting then clearing a bit restores the word exactly when the bit was clear. */
  lemma WordSetThenClear(w: bv32, low: bv5)
    ensures WithBit(WithBit(w, low, true), low, false) == w <==> !HasBit(w, low)
  {
  }

  /** Setting then clearing a flag gives back the vector exactly when the flag was clear. */
  lemma SetThenClear(words: seq<bv32>, val: nat)
    requires val / 32 < |words|
    ensures SetFlag(SetFlag(words, val, true).value, val, false).value == words
            <==> !HasFlag(words, val)
  {
    var high, low := val / 32, Low(val);
    var back := SetFlag(SetFlag(words, val, true).value, val, false).value;
    assert back == words[high := WithBit(WithBit(words[high], low, true), low, false)];
    WordSetThenClear(words[high], low);
    if !HasFlag(words, val) {
      assert back == words;
    } else {
      assert back[high] != words[high];
    }
  }

  /** "manages_descendants" resolves to the manages-descendants index. */
  lemma ManagesDescendantsName()
    ensures FlagIndex("manages_descendants") == Ok(STATE_MANAGES_DESCENDANTS)
  {
    assert Upper("manages_descendants") == "MANAGES_DESCENDANTS";
  }
}
