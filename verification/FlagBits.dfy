// The 32-bit words of an event flag group, and what a wait for some of them means (os_flag.c).

module FlagBits {
  import opened PrioBits

  datatype FlagMode = SetAll | SetAny | ClrAll | ClrAny

  predicate SetMode(mode: FlagMode) { mode == SetAll || mode == SetAny }

  // The requested flags that are in the requested state.
  function RdyBits(bits: bv32, flags: bv32, mode: FlagMode): bv32 {
    if SetMode(mode) then bits & flags else !bits & flags
  }

  predicate Hit(rdy: bv32, flags: bv32, mode: FlagMode) {
    if mode == SetAll || mode == ClrAll then rdy == flags else rdy != 0
  }

  predicate Satisfied(bits: bv32, flags: bv32, mode: FlagMode) {
    Hit(RdyBits(bits, flags, mode), flags, mode)
  }

  // Consuming clears flags waited for to be set, and sets flags waited for to be clear.
  function Consumed(bits: bv32, rdy: bv32, mode: FlagMode): bv32 {
    if SetMode(mode) then bits & !rdy else bits | rdy
  }

  // What a post makes of the flags of a group.
  function PostedBits(bits: bv32, flags: bv32, set_: bool): bv32 {
    if set_ then bits | flags else bits & !flags
  }

  // The flags in the requested state can only become fewer.
  lemma Fewer(bits: bv32, rdy: bv32, flags: bv32)
    ensures ((bits & !rdy) & flags) & !(bits & flags) == 0
    ensures (!(bits | rdy) & flags) & !(!bits & flags) == 0
  {
  }

  lemma MoreHits(few: bv32, many: bv32, flags: bv32, mode: FlagMode)
    requires few & !many == 0 && many & !flags == 0 && Hit(few, flags, mode)
    ensures Hit(many, flags, mode)
  {
  }

  lemma RdyWithin(bits: bv32, flags: bv32, mode: FlagMode)
    ensures RdyBits(bits, flags, mode) & !flags == 0
  {
  }

  lemma RdyFewer(bits: bv32, rdy: bv32, mode: FlagMode, flags: bv32, mode': FlagMode)
    requires SetMode(mode') == SetMode(mode)
    ensures RdyBits(Consumed(bits, rdy, mode), flags, mode') & !RdyBits(bits, flags, mode') == 0
  {
    Fewer(bits, rdy, flags);
  }

  // Consuming flags never makes a wait of the same polarity come true.
  lemma ConsumedSatisfies(bits: bv32, rdy: bv32, mode: FlagMode, flags: bv32, mode': FlagMode)
    requires SetMode(mode') == SetMode(mode) && Satisfied(Consumed(bits, rdy, mode), flags, mode')
    ensures Satisfied(bits, flags, mode')
  {
    RdyFewer(bits, rdy, mode, flags, mode');
    RdyWithin(bits, flags, mode');
    hide RdyBits, Consumed, Hit;
    MoreHits(RdyBits(Consumed(bits, rdy, mode), flags, mode'), RdyBits(bits, flags, mode'), flags, mode');
  }

  // ---------------------------------------------------------------- flag by flag

  // What a wait asks for: all or some of its flags to be set, or to be clear.
  ghost predicate Asked(bits: bv32, flags: bv32, mode: FlagMode) {
    match mode
    case SetAll => forall i: Bit :: IsSet(flags, i) ==> IsSet(bits, i)
    case SetAny => exists i: Bit :: IsSet(flags, i) && IsSet(bits, i)
    case ClrAll => forall i: Bit :: IsSet(flags, i) ==> !IsSet(bits, i)
    case ClrAny => exists i: Bit :: IsSet(flags, i) && !IsSet(bits, i)
  }

  // The flags asked for that are as asked.
  ghost predicate Found(bits: bv32, flags: bv32, mode: FlagMode, rdy: bv32) {
    forall i: Bit :: IsSet(rdy, i) <==> IsSet(flags, i) && (IsSet(bits, i) <==> mode == SetAll || mode == SetAny)
  }

  lemma AndBit(a: bv32, b: bv32, i: Bit)
    ensures IsSet(a & b, i) <==> IsSet(a, i) && IsSet(b, i)
  {
  }

  lemma OrBit(a: bv32, b: bv32, i: Bit)
    ensures IsSet(a | b, i) <==> IsSet(a, i) || IsSet(b, i)
  {
    Distribute(a, b, Mask(i));
    OrZero(a & Mask(i), b & Mask(i));
  }

  lemma NotBit(a: bv32, i: Bit)
    ensures IsSet(!a, i) <==> !IsSet(a, i)
  {
  }

  lemma SomeBit(w: bv32)
    ensures w != 0 <==> exists i: Bit :: IsSet(w, i)
  {
    if w != 0 {
      ZeroWord(w);
      assert IsSet(w, BitOf(CntLeadZeros(w)));
    } else {
      forall i: Bit ensures !IsSet(w, i) { NoneInZero(i); }
    }
  }

  lemma Covers(w: bv32, flags: bv32)
    ensures w & flags == flags <==> forall i: Bit :: IsSet(flags, i) ==> IsSet(w, i)
  {
    Missing(w, flags);
    SomeBit(flags & !w);
    forall i: Bit
      ensures IsSet(flags & !w, i) <==> IsSet(flags, i) && !IsSet(w, i)
    {
      AndBit(flags, !w, i);
      NotBit(w, i);
    }
  }

  lemma Missing(w: bv32, flags: bv32)
    ensures w & flags == flags <==> flags & !w == 0
  {
    if w & flags == flags { NoneLeft(w, flags); }
    Parts(w, flags);
  }

  lemma NoneLeft(w: bv32, flags: bv32)
    ensures (w & flags) & !w == 0
  {
  }

  lemma Parts(w: bv32, flags: bv32)
    ensures flags == (w & flags) | (flags & !w)
  {
  }

  lemma Meets(w: bv32, flags: bv32)
    ensures w & flags != 0 <==> exists i: Bit :: IsSet(flags, i) && IsSet(w, i)
  {
    SomeBit(w & flags);
    forall i: Bit
      ensures IsSet(w & flags, i) <==> IsSet(flags, i) && IsSet(w, i)
    {
      AndBit(w, flags, i);
    }
  }

  // n is w with every bit turned over.
  ghost predicate Flipped(w: bv32, n: bv32) {
    forall i: Bit :: IsSet(n, i) <==> !IsSet(w, i)
  }

  lemma NotFlips(w: bv32)
    ensures Flipped(w, !w)
  {
    forall i: Bit ensures IsSet(!w, i) <==> !IsSet(w, i) { NotBit(w, i); }
  }

  lemma ClearAsked(bits: bv32, n: bv32, flags: bv32)
    requires Flipped(bits, n)
    ensures Asked(bits, flags, ClrAll) <==> Asked(n, flags, SetAll)
    ensures Asked(bits, flags, ClrAny) <==> Asked(n, flags, SetAny)
  {
    hide IsSet;
  }

  lemma SetAsked(bits: bv32, flags: bv32)
    ensures Hit(bits & flags, flags, SetAll) <==> Asked(bits, flags, SetAll)
    ensures Hit(bits & flags, flags, SetAny) <==> Asked(bits, flags, SetAny)
  {
    hide IsSet;
    Covers(bits, flags);
    Meets(bits, flags);
  }

  lemma SatisfiedSet(bits: bv32, flags: bv32, mode: FlagMode)
    requires SetMode(mode)
    ensures Satisfied(bits, flags, mode) <==> Asked(bits, flags, mode)
  {
    hide Asked;
    SetAsked(bits, flags);
  }

  lemma SatisfiedClear(bits: bv32, n: bv32, flags: bv32, mode: FlagMode)
    requires !SetMode(mode) && Flipped(bits, n) && RdyBits(bits, flags, mode) == n & flags
    ensures Satisfied(bits, flags, mode) <==> Asked(bits, flags, mode)
  {
    hide RdyBits, Asked, Flipped;
    SetAsked(n, flags);
    ClearAsked(bits, n, flags);
  }

  // A wait is satisfied exactly when the flags are as it asks.
  lemma SatisfiedAsked(bits: bv32, flags: bv32, mode: FlagMode)
    ensures Satisfied(bits, flags, mode) <==> Asked(bits, flags, mode)
  {
    hide Satisfied, Asked, Flipped;
    if SetMode(mode) {
      SatisfiedSet(bits, flags, mode);
    } else {
      NotFlips(bits);
      SatisfiedClear(bits, !bits, flags, mode);
    }
  }

  lemma RdyFound(bits: bv32, flags: bv32, mode: FlagMode)
    ensures Found(bits, flags, mode, RdyBits(bits, flags, mode))
  {
    hide IsSet, RdyBits;
    forall i: Bit
      ensures IsSet(RdyBits(bits, flags, mode), i) <==>
        IsSet(flags, i) && (IsSet(bits, i) <==> mode == SetAll || mode == SetAny)
    {
      RdyBit(bits, flags, mode, i);
    }
  }

  lemma RdyBit(bits: bv32, flags: bv32, mode: FlagMode, i: Bit)
    ensures IsSet(RdyBits(bits, flags, mode), i) <==>
      IsSet(flags, i) && (IsSet(bits, i) <==> mode == SetAll || mode == SetAny)
  {
    hide IsSet;
    if SetMode(mode) { AndBit(bits, flags, i); } else { ClearBits(bits, flags, i); }
  }

  lemma ClearBits(bits: bv32, flags: bv32, i: Bit)
    ensures IsSet(!bits & flags, i) <==> !IsSet(bits, i) && IsSet(flags, i)
  {
    AndBit(!bits, flags, i);
    NotBit(bits, i);
    hide IsSet;
  }

  // Consuming takes exactly the flags found: those asked to be set are cleared, those asked to be
  // clear are set, and no other flag changes.
  lemma ConsumedBits(bits: bv32, rdy: bv32, mode: FlagMode, i: Bit)
    ensures IsSet(Consumed(bits, rdy, mode), i) <==>
      if IsSet(rdy, i) then mode == ClrAll || mode == ClrAny else IsSet(bits, i)
  {
    hide IsSet;
    AndBit(bits, !rdy, i);
    NotBit(rdy, i);
    OrBit(bits, rdy, i);
  }

  // A post sets or clears exactly the flags named.
  lemma PostedFlags(bits: bv32, flags: bv32, set_: bool, i: Bit)
    ensures IsSet(PostedBits(bits, flags, set_), i) <==> if IsSet(flags, i) then set_ else IsSet(bits, i)
  {
    hide IsSet;
    AndBit(bits, !flags, i);
    NotBit(flags, i);
    OrBit(bits, flags, i);
  }

  // The flags of a group after a post: exactly those named are set, or cleared.
  ghost predicate Changed(bits: bv32, bits': bv32, flags: bv32, set_: bool) {
    forall i: Bit :: IsSet(bits', i) <==> if IsSet(flags, i) then set_ else IsSet(bits, i)
  }

  // The flags after consuming: those found are turned over, and no others.
  ghost predicate Taken(bits: bv32, bits': bv32, rdy: bv32, mode: FlagMode) {
    forall i: Bit :: IsSet(bits', i) <==> if IsSet(rdy, i) then mode == ClrAll || mode == ClrAny else IsSet(bits, i)
  }

  lemma PostChanges(bits: bv32, flags: bv32, set_: bool)
    ensures Changed(bits, PostedBits(bits, flags, set_), flags, set_)
  {
    hide IsSet, PostedBits;
    forall i: Bit
      ensures IsSet(PostedBits(bits, flags, set_), i) <==> if IsSet(flags, i) then set_ else IsSet(bits, i)
    {
      PostedFlags(bits, flags, set_, i);
    }
  }

  lemma ConsumeTakes(bits: bv32, rdy: bv32, mode: FlagMode)
    ensures Taken(bits, Consumed(bits, rdy, mode), rdy, mode)
  {
    hide IsSet, Consumed;
    forall i: Bit
      ensures IsSet(Consumed(bits, rdy, mode), i) <==>
        if IsSet(rdy, i) then mode == ClrAll || mode == ClrAny else IsSet(bits, i)
    {
      ConsumedBits(bits, rdy, mode, i);
    }
  }
}
