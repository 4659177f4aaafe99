/**
 * The fixed-capacity ring of lookahead tokens that sits between the scanner
 * and the parser (class TokenArray of compiler/Parser.ts).
 *
 * The scanner is the finite sequence `stream` followed by null forever;
 * `scanned` counts the tokens it has handed out. The ghost counter `consumed`
 * is the number of successful reads: the public view is the unbounded queue
 * `At(stream, consumed + i)`, and `Valid()` says that slot
 * `(current + i) % size` holds exactly that token for every `i < size`.
 */
module TokenRing {
  import opened Wrappers
  import opened Tokens

  lemma ModBelowTwice(x: int, n: int)
    requires 0 < n && 0 <= x < 2 * n
    ensures x % n == if x < n then x else x - n
  {
    if x < n {
      assert x == n * 0 + x;
    } else {
      assert x == n * 1 + (x - n);
    }
  }

  /** `n * a` is at least `n` when `a` is positive. */
  lemma {:induction false} ProductAtLeast(a: int, n: int)
    requires 0 < n && 1 <= a
    ensures n * a >= n
  {
    if a > 1 {
      ProductAtLeast(a - 1, n);
      assert n * a == n * (a - 1) + n;
    }
  }

  /** A decomposition `x == n * q + r` with `0 <= r < n` fixes the remainder. */
  lemma RemainderIsUnique(x: int, n: int, q: int, r: int)
    requires 0 < n && 0 <= r < n && x == n * q + r
    ensures x % n == r
  {
    var q0 := x / n;
    assert x == n * q0 + x % n;
    if q > q0 {
      ProductAtLeast(q - q0, n);
      assert false;
    } else if q < q0 {
      ProductAtLeast(q0 - q, n);
      assert false;
    }
  }

  /** Adding `i` to a cursor and adding `i % n` reach the same slot of a ring of `n` slots. */
  lemma ModOfSum(c: nat, i: nat, n: nat)
    requires 0 < n
    ensures (c + i) % n == (c + i % n) % n
  {
    var k := i / n;
    var q := (c + i % n) / n;
    assert i == n * k + i % n;
    assert c + i % n == n * q + (c + i % n) % n;
    assert c + i == n * (q + k) + (c + i % n) % n;
    RemainderIsUnique(c + i, n, q + k, (c + i % n) % n);
  }

  /** The slot that holds the token `i` places after the cursor `c` in a ring of `n` slots. */
  function Pos(c: nat, i: nat, n: nat): nat
    requires 0 < n
  {
    (c + i) % n
  }

  /** Slot `Pos(c, i, |slots|)` holds the token `i` reads after the first `consumed` ones. */
  ghost predicate RingAt(slots: seq<Option<Token>>, c: nat, stream: seq<Token>, consumed: nat, i: nat)
    requires 0 < |slots|
  {
    slots[Pos(c, i, |slots|)] == At(stream, consumed + i)
  }

  /** Every offset below the capacity names the matching token of the stream. */
  ghost predicate RingHolds(slots: seq<Option<Token>>, c: nat, stream: seq<Token>, consumed: nat)
    requires 0 < |slots|
  {
    forall i :: 0 <= i < |slots| ==> RingAt(slots, c, stream, consumed, i)
  }

  /** Reading any offset of a valid ring yields the token that offset modulo the capacity names. */
  lemma RingRead(slots: seq<Option<Token>>, c: nat, stream: seq<Token>, consumed: nat, index: nat)
    requires 0 < |slots| && RingHolds(slots, c, stream, consumed)
    ensures slots[(c + index) % |slots|] == At(stream, consumed + index % |slots|)
    ensures index < |slots| ==> index % |slots| == index
  {
    var n := |slots|;
    ModOfSum(c, index, n);
    assert RingAt(slots, c, stream, consumed, index % n);
    if index < n {
      RemainderIsUnique(index, n, 0, index);
    }
  }

  /**
   * Overwriting the cursor slot with the token `|slots|` places ahead and
   * advancing the cursor keeps the window: every offset now names the next token.
   */
  lemma ShiftWindow(slots: seq<Option<Token>>, after: seq<Option<Token>>, c: nat, c': nat,
                    stream: seq<Token>, consumed: nat, consumed': nat)
    requires 0 < |slots| && c < |slots| && c' == (c + 1) % |slots| && consumed' == consumed + 1
    requires RingHolds(slots, c, stream, consumed)
    requires after == slots[c := At(stream, consumed + |slots|)]
    ensures RingHolds(after, c', stream, consumed')
  {
    var n := |slots|;
    ModBelowTwice(c + 1, n);
    forall i | 0 <= i < n
      ensures RingAt(after, c', stream, consumed', i)
    {
      ModBelowTwice(c' + i, n);
      if i + 1 < n {
        ModBelowTwice(c + i + 1, n);
        ModBelowTwice(c, n);
        assert Pos(c', i, n) == Pos(c, i + 1, n);
        assert RingAt(slots, c, stream, consumed, i + 1);
      } else {
        assert Pos(c', i, n) == c;
      }
    }
  }

  /** A buffer filled from the start of the stream, with the cursor at slot 0, holds the window. */
  lemma InitialWindow(slots: seq<Option<Token>>, stream: seq<Token>)
    requires 0 < |slots|
    requires forall j :: 0 <= j < |slots| ==> slots[j] == At(stream, j)
    ensures RingHolds(slots, 0, stream, 0)
  {
    forall i | 0 <= i < |slots|
      ensures RingAt(slots, 0, stream, 0, i)
    {
      ModBelowTwice(i, |slots|);
    }
  }

  class TokenArray {
    const stream: seq<Token>
    var scanned: nat
    const buffer: array<Option<Token>>
    var current: nat
    const size: nat
    /** The log of the listener reached through the scanner's context. */
    var errors: seq<Diagnostic>
    ghost var consumed: nat

    ghost predicate Valid()
      reads this, buffer
    {
      && 5 <= size && buffer.Length == size && current < size
      && consumed <= |stream|
      && scanned == Min(consumed + size, |stream|)
      && RingHolds(buffer[..], current, stream, consumed)
    }

    /** The scanner: the next token of the stream, or null once it is exhausted. */
    method ReadToken() returns (t: Option<Token>)
      modifies this`scanned
      ensures t == At(stream, old(scanned))
      ensures scanned == if old(scanned) < |stream| then old(scanned) + 1 else old(scanned)
    {
      if scanned < |stream| {
        t := Some(stream[scanned]);
        scanned := scanned + 1;
      } else {
        t := None;
      }
    }

    /**
     * The capacity is `max(5, size)` but the fill loop runs up to the `size`
     * argument, so only a requested size of at least 5 sets up the window.
     */
    constructor (stream: seq<Token>, size: int)
      ensures this.stream == stream && this.size == (if 5 <= size then size else 5)
      ensures current == 0 && errors == [] && fresh(buffer) && buffer.Length == this.size
      ensures forall j :: 0 <= j < this.size ==> buffer[j] == (if j < size then At(stream, j) else None)
      ensures 5 <= size ==> Valid() && consumed == 0
    {
      this.stream := stream;
      current := 0;
      this.size := if 5 <= size then size else 5;
      buffer := new Option<Token>[if 5 <= size then size else 5](_ => None);
      scanned := 0;
      errors := [];
      consumed := 0;
      new;
      var i := 0;
      var exhausted := false;
      while i < size && !exhausted
        invariant current == 0 && errors == [] && consumed == 0
        invariant 0 <= i <= this.size && i <= |stream| && scanned == i
        invariant i == 0 || i <= size
        invariant exhausted ==> i == |stream|
        invariant forall j :: 0 <= j < i ==> buffer[j] == At(stream, j)
        invariant forall j :: i <= j < this.size ==> buffer[j] == None
        decreases size - i, if exhausted then 0 else 1
      {
        var t := ReadToken();
        buffer[i] := t;
        if t.None? {
          exhausted := true;
        } else {
          i := i + 1;
        }
      }
      forall j | 0 <= j < this.size
        ensures buffer[j] == (if j < size then At(stream, j) else None)
      {
        if j < i {
          assert buffer[j] == At(stream, j);
          assert j < size;
        } else {
          assert buffer[j] == None;
          if j < size {
            assert exhausted;
            assert At(stream, j) == None;
          }
        }
      }
      if 5 <= size {
        InitialWindow(buffer[..], stream);
      }
    }

    /**
     * Returns the current token and advances the cursor, refilling the vacated
     * slot from the scanner; at the end of input it returns null and changes nothing.
     */
    method Read() returns (t: Option<Token>)
      requires Valid()
      modifies this, buffer
      ensures Valid() && errors == old(errors)
      ensures t == At(stream, old(consumed))
      ensures consumed == if t.Some? then old(consumed) + 1 else old(consumed)
      ensures t.None? ==> current == old(current) && buffer[..] == old(buffer[..]) && scanned == old(scanned)
    {
      assert Pos(current, 0, size) == current by { ModBelowTwice(current, size); }
      assert RingAt(buffer[..], current, stream, consumed, 0);
      if buffer[current].Some? {
        var value := buffer[current];
        var next := ReadToken();
        ShiftWindow(buffer[..], buffer[..][current := next], current, (current + 1) % size, stream, consumed, consumed + 1);
        buffer[current] := next;
        current := (current + 1) % size;
        consumed := consumed + 1;
        return value;
      }
      return None;
    }

    /**
     * The token `index` positions ahead. The slot is taken modulo the capacity,
     * so an index at or past the capacity wraps round to the token
     * `index % size` positions ahead (`PeekWraps`).
     */
    function PeekAt(index: nat): (t: Option<Token>)
      reads this, buffer
      requires Valid()
      ensures index < size ==> t == At(stream, consumed + index)
    {
      RingRead(buffer[..], current, stream, consumed, index);
      buffer[(current + index) % size]
    }

    /** Any index, even one at or past the capacity, reads the token `index % size` positions ahead. */
    lemma PeekWraps(index: nat)
      requires Valid()
      ensures PeekAt(index) == At(stream, consumed + index % size)
      ensures PeekTypeAt(index) == Kind(stream, consumed + index % size)
    {
      RingRead(buffer[..], current, stream, consumed, index);
    }

    function Peek(): (t: Option<Token>)
      reads this, buffer
      requires Valid()
      ensures t == At(stream, consumed)
    {
      PeekAt(0)
    }

    /** The kind of the token `index` positions ahead, wrapping as `PeekAt` does, or null for a null slot. */
    function PeekTypeAt(index: nat): (k: Option<TokenKind>)
      reads this, buffer
      requires Valid()
      ensures index < size ==> k == Kind(stream, consumed + index)
    {
      var t := PeekAt(index);
      if t.None? then None else Some(t.value.kind)
    }

    /** The kind of the next token of the queue; `PeekType` reads it from the ring. */
    ghost function NextKind(): Option<TokenKind>
      reads this
    {
      Kind(stream, consumed)
    }

    function PeekType(): (k: Option<TokenKind>)
      reads this, buffer
      requires Valid()
      ensures k == NextKind()
    {
      PeekTypeAt(0)
    }

    /**
     * Whether the next tokens have exactly the kinds `types`, in order. It never
     * reports anything, whatever `isRequired` says, and fails outright for no
     * kinds, for as many kinds as the capacity, or when a later slot holds the
     * first slot's token again.
     */
    method Lookahead(isRequired: bool, types: seq<TokenKind>) returns (r: bool)
      requires Valid()
      ensures r <==> 0 < |types| < size && Matches(stream, consumed, types)
    {
      if |types| == 0 {
        return false;
      }
      if |types| >= size {
        return false;
      }
      var first := PeekAt(0);
      var count := |types|;
      for i := 0 to count
        invariant forall k :: 0 <= k < i ==> MatchAt(stream, consumed, types, k)
      {
        var pos := (current + i) % size;
        var entry := buffer[pos];
        assert entry == PeekAt(i);
        if i != 0 && entry == first {
          assert MatchAt(stream, consumed, types, 0);
          assert !MatchAt(stream, consumed, types, i);
          return false;
        }
        if entry.None? || entry.value.kind != types[i] {
          assert !MatchAt(stream, consumed, types, i);
          return false;
        }
        assert i != 0 ==> MatchAt(stream, consumed, types, 0);
        assert MatchAt(stream, consumed, types, i);
      }
      return true;
    }

    /** Reads and drops `count` tokens; reads at the end of input change nothing. */
    method Discard(count: nat)
      requires Valid()
      modifies this, buffer
      ensures Valid() && errors == old(errors)
      ensures consumed == Min(old(consumed) + count, |stream|)
    {
      for i := 0 to count
        invariant Valid() && errors == old(errors)
        invariant consumed == Min(old(consumed) + i, |stream|)
      {
        var _ := Read();
      }
    }

    /**
     * Consumes the next token when it has kind `kind`; otherwise reports one
     * syntax error and consumes nothing.
     */
    method DiscardIf(kind: TokenKind) returns (ok: bool)
      requires Valid()
      modifies this, buffer
      ensures Valid()
      ensures ok <==> Kind(stream, old(consumed)) == Some(kind)
      ensures consumed == if ok then old(consumed) + 1 else old(consumed)
      ensures errors == if ok then old(errors) else old(errors) + [Expected([kind])]
      ensures !ok ==> current == old(current) && buffer[..] == old(buffer[..])
    {
      var t := Peek();
      if t.Some? && t.value.kind == kind {
        var _ := Read();
        return true;
      } else {
        errors := errors + [Expected([kind])];
        return false;
      }
    }
  }

  /** When no token object repeats, the identity guard of `Lookahead` never fires. */
  lemma MatchesDistinct(stream: seq<Token>, p: nat, kinds: seq<TokenKind>)
    requires Distinct(stream)
    ensures Matches(stream, p, kinds) <==> forall i :: 0 <= i < |kinds| ==> Kind(stream, p + i) == Some(kinds[i])
  {
    if forall i :: 0 <= i < |kinds| ==> Kind(stream, p + i) == Some(kinds[i]) {
      forall i | 0 <= i < |kinds|
        ensures MatchAt(stream, p, kinds, i)
      {
        assert Kind(stream, p + i) == Some(kinds[i]);
        if i != 0 {
          assert Kind(stream, p + 0) == Some(kinds[0]);
          assert p < p + i < |stream|;
        }
      }
    }
    if Matches(stream, p, kinds) {
      forall i | 0 <= i < |kinds|
        ensures Kind(stream, p + i) == Some(kinds[i])
      {
        assert MatchAt(stream, p, kinds, i);
      }
    }
  }
}
