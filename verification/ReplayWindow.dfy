/** The receive side's replay check: a ring of bit words over a sliding window, as in sections 2 and 3 of RFC 6479. */
module ReplayWindow {

  const BITS_PER_LONG := 64
  const COUNTER_BITS_TOTAL := 8192
  const COUNTER_WINDOW_SIZE := COUNTER_BITS_TOTAL - BITS_PER_LONG
  const WORDS := COUNTER_BITS_TOTAL / BITS_PER_LONG
  const U64_MAX := 0xFFFF_FFFF_FFFF_FFFF
  const REJECT_AFTER_MESSAGES := U64_MAX - COUNTER_WINDOW_SIZE - 1

  // One machine word, bit by bit.
  type Word = w: seq<bool> | |w| == 64 witness seq(64, _ => false)

  const ZERO: Word := seq(64, _ => false)

  // What a replay check is for, said without a window of bits: a message number is good when it is below the
  // limit, was not accepted before, and is not more than the window behind any number accepted before.
  // The window is 8128 wide and the limit leaves it room below 2^64.
  ghost predicate Acceptable(accepted: set<nat>, n: nat) {
    n + 8129 < 0xFFFF_FFFF_FFFF_FFFF && n !in accepted && forall m | m in accepted :: m <= n + 8128
  }

  ghost function Accept(accepted: set<nat>, n: nat): set<nat> {
    if Acceptable(accepted, n) then accepted + {n} else accepted
  }

  class ReplayCounter {
    var counter: nat
    const backtrack: array<Word>
    ghost var accepted: set<nat>

    // The bit that stands for position v, a message number plus one.
    ghost predicate Bit(v: nat)
      reads backtrack
      requires backtrack.Length == WORDS
    {
      backtrack[v / 64 % 128][v % 64]
    }

    // The ring covers the word of the highest number and the 127 words before it.
    ghost predicate InRing(c: nat, v: nat) {
      c / 64 - 127 <= v / 64 <= c / 64
    }

    ghost predicate Highest()
      reads this
    {
      counter <= REJECT_AFTER_MESSAGES && (forall m | m in accepted :: m < counter)
        && (counter > 0 ==> counter - 1 in accepted)
    }

    ghost predicate Valid()
      reads this, backtrack
    {
      backtrack.Length == WORDS && Highest()
      && forall v: nat | InRing(counter, v) :: Bit(v) <==> v > 0 && v - 1 in accepted
    }

    constructor ()
      ensures Valid() && accepted == {} && fresh(backtrack)
    {
      counter := 0;
      backtrack := new Word[128](_ => ZERO);
      accepted := {};
    }

    // Clear the words the window moves into.
    method Slide(index: nat)
      requires Valid() && counter / 64 <= index
      modifies backtrack
      ensures forall v: nat | index - 127 <= v / 64 <= index :: Bit(v) <==> v > 0 && v - 1 in accepted
    {
      var current := counter / 64;
      var top := if index - current < 128 then index - current else 128;
      for i := 1 to top + 1
        invariant forall j | 0 <= j < 128 :: backtrack[j] == if Ahead(current, j) < i - 1 then ZERO
          else old(backtrack[j])
      {
        AheadAt(current, i);
        backtrack[(i + current) % 128] := ZERO;
      }
      forall v: nat | index - 127 <= v / 64 <= index ensures Bit(v) <==> v > 0 && v - 1 in accepted {
        var w := v / 64;
        if w <= current {
          assert InRing(counter, v);
          AheadBehind(current, w);
        } else if w - current <= 128 {
          AheadAt(current, w - current);
        }
      }
    }

    method TestAndSet(v: nat) returns (was: bool)
      requires backtrack.Length == WORDS
      modifies backtrack
      ensures was == old(Bit(v))
      ensures forall u: nat | InRing(counter, u) && InRing(counter, v) :: Bit(u) <==> old(Bit(u)) || u == v
    {
      was := backtrack[v / 64 % 128][v % 64];
      backtrack[v / 64 % 128] := backtrack[v / 64 % 128][v % 64 := true];
      forall u: nat | InRing(counter, u) && InRing(counter, v) ensures Bit(u) <==> old(Bit(u)) || u == v {
        SameBit(counter, u, v);
      }
    }

    method Validate(theirCounter: nat) returns (ok: bool)
      requires Valid() && theirCounter <= U64_MAX
      modifies this, backtrack
      ensures Valid()
      ensures ok <==> Acceptable(old(accepted), theirCounter)
      ensures accepted == Accept(old(accepted), theirCounter)
    {
      if counter >= REJECT_AFTER_MESSAGES + 1 || theirCounter >= REJECT_AFTER_MESSAGES { return false; }
      var theirs := theirCounter + 1;
      assert COUNTER_WINDOW_SIZE + theirs <= U64_MAX;
      if COUNTER_WINDOW_SIZE + theirs < counter {
        assert counter - 1 in accepted;
        return false;
      }
      if theirs > counter {
        Slide(theirs / 64);
        counter := theirs;
      }
      assert forall v: nat | InRing(counter, v) :: Bit(v) <==> v > 0 && v - 1 in accepted;
      assert InRing(counter, theirs);
      var was := TestAndSet(theirs);
      accepted := accepted + {theirCounter};
      ok := !was;
    }
  }

  // How far slot j of the ring lies after the slot of word current.
  function Ahead(current: nat, j: nat): nat {
    (j - current - 1) % 128
  }

  lemma AheadAt(current: nat, i: nat)
    requires 1 <= i <= 128
    ensures Ahead(current, (i + current) % 128) == i - 1
    ensures forall j: nat | j < 128 && Ahead(current, j) == i - 1 :: j == (i + current) % 128
  {
  }

  lemma AheadBehind(current: nat, w: nat)
    requires current - 127 <= w <= current
    ensures Ahead(current, w % 128) == w - current + 127
  {
  }

  // Within the ring, two positions share a bit only if they are the same.
  lemma SameBit(c: nat, v: nat, u: nat)
    requires c / 64 - 127 <= v / 64 <= c / 64 && c / 64 - 127 <= u / 64 <= c / 64
    ensures v / 64 % 128 == u / 64 % 128 && v % 64 == u % 64 ==> v == u
  {
  }
}
