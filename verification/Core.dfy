/**
 Critical sections (PRIMASK) and NVIC mask sections, alone and nested in any way.
 */
module Core {
  import opened Bits

  const EXT_IRQ_COUNT: nat := 51

  /** CORE_nvicMask_t: two words, one bit per interrupt. */
  datatype NvicMask = NvicMask(w0: Word, w1: Word)

  /** The interrupts of a mask. */
  function Irqs(m: NvicMask): set<nat> {
    set i | 0 <= i < 64 && (if i < 32 then m.w0[i] else m.w1[i - 32])
  }

  /** CORE_NvicMaskSetIRQ. */
  function SetIrq(m: NvicMask, irq: nat): (r: NvicMask)
    requires irq < EXT_IRQ_COUNT
    ensures Irqs(r) == Irqs(m) + {irq}
  {
    if irq / 32 == 0 then m.(w0 := Or(m.w0, OneAt(irq % 32))) else m.(w1 := Or(m.w1, OneAt(irq % 32)))
  }

  /** CORE_NvicMaskClearIRQ. */
  function ClearIrq(m: NvicMask, irq: nat): (r: NvicMask)
    requires irq < EXT_IRQ_COUNT
    ensures Irqs(r) == Irqs(m) - {irq}
  {
    if irq / 32 == 0 then m.(w0 := And(m.w0, Not(OneAt(irq % 32)))) else m.(w1 := And(m.w1, Not(OneAt(irq % 32))))
  }

  // ----- the effect of writing ISER and ICER -----

  function WriteIser(enabled: NvicMask, value: NvicMask): (r: NvicMask)
    ensures Irqs(r) == Irqs(enabled) + Irqs(value)
  {
    NvicMask(Or(enabled.w0, value.w0), Or(enabled.w1, value.w1))
  }

  function WriteIcer(enabled: NvicMask, value: NvicMask): (r: NvicMask)
    ensures Irqs(r) == Irqs(enabled) - Irqs(value)
  {
    NvicMask(And(enabled.w0, Not(value.w0)), And(enabled.w1, Not(value.w1)))
  }

  /** The lines of `enable` that are now disabled, the way CORE_YieldNvicMask computes them. */
  function Disabled(enabled: NvicMask, enable: NvicMask): (r: NvicMask)
    ensures Irqs(r) == Irqs(enable) - Irqs(enabled)
  {
    var m := NvicMask(And(enabled.w0, enable.w0), And(enabled.w1, enable.w1));
    NvicMask(And(Not(m.w0), enable.w0), And(Not(m.w1), enable.w1))
  }

  lemma SameIrqs(a: NvicMask, b: NvicMask)
    requires Irqs(a) == Irqs(b)
    ensures a == b
  {
    forall i | 0 <= i < 32 ensures a.w0[i] == b.w0[i] && a.w1[i] == b.w1[i] {
      assert i in Irqs(a) <==> i in Irqs(b);
      assert i + 32 in Irqs(a) <==> i + 32 in Irqs(b);
    }
    assert a.w0 == b.w0 && a.w1 == b.w1;
  }

  // ----- programs of nested sections -----

  /** What code under these sections does, as far as interrupts go. */
  datatype Prog =
    | Work
    | Sequence(first: Prog, second: Prog)
    | Critical(body: Prog)
    | NvicSection(disable: NvicMask, body: Prog)
    | YieldCritical
    | YieldNvic(enable: NvicMask)

  /** PRIMASK and the enabled lines. */
  datatype State = State(primask: bool, enabled: NvicMask)

  /** The states in which a program's work is done, in order, when it starts in `s`. */
  function WorkStates(p: Prog, s: State): seq<State> {
    match p
    case Work => [s]
    case Sequence(a, b) => WorkStates(a, s) + WorkStates(b, s)
    case Critical(body) => WorkStates(body, s.(primask := true))
    case NvicSection(disable, body) => WorkStates(body, s.(enabled := WriteIcer(s.enabled, disable)))
    case YieldCritical => []
    case YieldNvic(_) => []
  }

  /** The states of the instants its yields open, in order. */
  function Instants(p: Prog, s: State): seq<State> {
    match p
    case Work => []
    case Sequence(a, b) => Instants(a, s) + Instants(b, s)
    case Critical(body) => Instants(body, s.(primask := true))
    case NvicSection(disable, body) => Instants(body, s.(enabled := WriteIcer(s.enabled, disable)))
    case YieldCritical => if s.primask then [s.(primask := false)] else []
    case YieldNvic(enable) =>
      if Irqs(enable) <= Irqs(s.enabled) then [] else [s.(enabled := WriteIser(s.enabled, enable))]
  }

  /** The lines a program's NVIC yields name. */
  function Yielded(p: Prog): set<nat> {
    match p
    case Sequence(a, b) => Yielded(a) + Yielded(b)
    case Critical(body) => Yielded(body)
    case NvicSection(_, body) => Yielded(body)
    case YieldNvic(enable) => Irqs(enable)
    case _ => {}
  }

  /**
   An instant opens PRIMASK with no more lines enabled than at the start, or keeps it and adds
   only lines its yields name.
   */
  lemma {:induction false} InstantsOnlyYield(p: Prog, s: State)
    ensures forall i <- Instants(p, s) ::
              || (!i.primask && Irqs(i.enabled) <= Irqs(s.enabled))
              || ((s.primask ==> i.primask) && Irqs(i.enabled) <= Irqs(s.enabled) + Yielded(p))
  {
    match p {
      case Sequence(a, b) =>
        InstantsOnlyYield(a, s);
        InstantsOnlyYield(b, s);
      case Critical(body) =>
        InstantsOnlyYield(body, s.(primask := true));
      case NvicSection(disable, body) =>
        InstantsOnlyYield(body, s.(enabled := WriteIcer(s.enabled, disable)));
      case _ =>
    }
  }

  /** How many pieces of work a program has, and how many yields of PRIMASK. */
  function Works(p: Prog): nat {
    match p
    case Work => 1
    case Sequence(a, b) => Works(a) + Works(b)
    case Critical(body) => Works(body)
    case NvicSection(_, body) => Works(body)
    case _ => 0
  }

  function CriticalYields(p: Prog): nat {
    match p
    case YieldCritical => 1
    case Sequence(a, b) => CriticalYields(a) + CriticalYields(b)
    case Critical(body) => CriticalYields(body)
    case NvicSection(_, body) => CriticalYields(body)
    case _ => 0
  }

  /** The lines its NVIC sections disable, and whether it has a critical section. */
  function Sectioned(p: Prog): set<nat> {
    match p
    case Sequence(a, b) => Sectioned(a) + Sectioned(b)
    case Critical(body) => Sectioned(body)
    case NvicSection(disable, body) => Irqs(disable) + Sectioned(body)
    case _ => {}
  }

  predicate HasCritical(p: Prog) {
    match p
    case Sequence(a, b) => HasCritical(a) || HasCritical(b)
    case Critical(_) => true
    case NvicSection(_, body) => HasCritical(body)
    case _ => false
  }

  /** All work is done, each piece once, and sections take away no more than they name. */
  lemma {:induction false} WorkIsDone(p: Prog, s: State)
    ensures |WorkStates(p, s)| == Works(p)
    ensures forall w <- WorkStates(p, s) ::
              Irqs(s.enabled) - Sectioned(p) <= Irqs(w.enabled) && (w.primask ==> s.primask || HasCritical(p))
  {
    match p {
      case Work =>
      case Sequence(a, b) =>
        WorkIsDone(a, s);
        WorkIsDone(b, s);
      case Critical(body) =>
        WorkIsDone(body, s.(primask := true));
      case NvicSection(disable, body) =>
        WorkIsDone(body, s.(enabled := WriteIcer(s.enabled, disable)));
      case _ =>
    }
  }

  /** How many of the instants have PRIMASK open. */
  function Opened(instants: seq<State>): nat {
    if instants == [] then 0 else (if instants[0].primask then 0 else 1) + Opened(instants[1..])
  }

  lemma {:induction false} OpenedConcat(a: seq<State>, b: seq<State>)
    ensures Opened(a + b) == Opened(a) + Opened(b)
  {
    if a != [] {
      assert (a + b)[1..] == a[1..] + b;
      OpenedConcat(a[1..], b);
    } else {
      assert a + b == b;
    }
  }

  /** With PRIMASK set at the start every yield of it opens exactly one instant, and nothing else does. */
  lemma {:induction false} YieldsOpen(p: Prog, s: State)
    requires s.primask
    ensures Opened(Instants(p, s)) == CriticalYields(p)
  {
    match p {
      case Sequence(a, b) =>
        YieldsOpen(a, s);
        YieldsOpen(b, s);
        OpenedConcat(Instants(a, s), Instants(b, s));
      case Critical(body) =>
        YieldsOpen(body, s.(primask := true));
      case NvicSection(disable, body) =>
        YieldsOpen(body, s.(enabled := WriteIcer(s.enabled, disable)));
      case _ =>
    }
  }

  /** No work is ever done with more enabled than at the start, nor with PRIMASK unmasked. */
  lemma {:induction false} SectionsOnlyTighten(p: Prog, s: State)
    ensures forall w <- WorkStates(p, s) :: (s.primask ==> w.primask) && Irqs(w.enabled) <= Irqs(s.enabled)
  {
    match p {
      case Work =>
      case Sequence(a, b) =>
        SectionsOnlyTighten(a, s);
        SectionsOnlyTighten(b, s);
      case Critical(body) =>
        SectionsOnlyTighten(body, s.(primask := true));
      case NvicSection(disable, body) =>
        SectionsOnlyTighten(body, s.(enabled := WriteIcer(s.enabled, disable)));
      case YieldCritical =>
      case YieldNvic(_) =>
    }
  }

  /** All work inside a critical section, however deep, is done with interrupts masked. */
  lemma CriticalMasksThroughout(body: Prog, s: State)
    ensures forall w <- WorkStates(Critical(body), s) :: w.primask
  {
    SectionsOnlyTighten(body, s.(primask := true));
  }

  /** All work inside an NVIC section is done with its lines disabled. */
  lemma NvicSectionDisablesThroughout(disable: NvicMask, body: Prog, s: State)
    ensures forall w <- WorkStates(NvicSection(disable, body), s) :: Irqs(w.enabled) !! Irqs(disable)
  {
    SectionsOnlyTighten(body, s.(enabled := WriteIcer(s.enabled, disable)));
  }

  // ----- the functions -----

  class Cpu {
    var primask: bool
    var enabled: NvicMask
    ghost var work: seq<State>
    ghost var instants: seq<State>

    constructor (primask: bool, enabled: NvicMask)
      ensures this.primask == primask && this.enabled == enabled && work == [] && instants == []
    {
      this.primask, this.enabled := primask, enabled;
      work, instants := [], [];
    }

    function Now(): State
      reads this
    {
      State(primask, enabled)
    }

    /** CORE_EnterCritical. */
    method EnterCritical() returns (irqState: bool)
      modifies this`primask
      ensures irqState == old(primask) && primask
    {
      irqState := primask;
      primask := true;
    }

    /** CORE_ExitCritical. */
    method ExitCritical(irqState: bool)
      modifies this`primask
      ensures primask == (old(primask) && irqState)
    {
      if !irqState {
        primask := false;
      }
    }

    /** CORE_YieldCritical: open for an instant if masked, and unchanged afterwards. */
    method Yield()
      modifies this`primask, this`instants
      ensures primask == old(primask)
      ensures instants == old(instants) + Instants(YieldCritical, Now())
      ensures primask ==> |instants| == |old(instants)| + 1 && instants[|instants| - 1] == State(false, enabled)
      ensures !primask ==> instants == old(instants)
    {
      if primask {
        primask := false;
        instants := instants + [Now()];
        primask := true;
      }
    }

    /** CORE_EnterNvicMask. */
    method EnterNvicMask(disable: NvicMask) returns (nvicState: NvicMask)
      modifies this`primask, this`enabled
      ensures nvicState == old(enabled) && primask == old(primask)
      ensures enabled == WriteIcer(old(enabled), disable)
    {
      var irqState := EnterCritical();
      nvicState := enabled;
      enabled := WriteIcer(enabled, disable);
      ExitCritical(irqState);
    }

    /** CORE_NvicEnableMask. */
    method NvicEnableMask(enable: NvicMask)
      modifies this`primask, this`enabled
      ensures primask == old(primask) && enabled == WriteIser(old(enabled), enable)
    {
      var irqState := EnterCritical();
      enabled := WriteIser(enabled, enable);
      ExitCritical(irqState);
    }

    /**
     CORE_YieldNvicMask: if any line of the argument is disabled, there is an instant with
     every line of it enabled besides those that were; the enabled set ends as it began.
     */
    method YieldNvicMask(enable: NvicMask)
      modifies this`primask, this`enabled, this`instants
      ensures primask == old(primask) && enabled == old(enabled)
      ensures instants == old(instants) + Instants(YieldNvic(enable), Now())
      ensures (exists irq :: irq in Irqs(enable) && irq !in Irqs(enabled)) ==>
                && |instants| == |old(instants)| + 1
                && instants[|instants| - 1].primask == primask
                && Irqs(instants[|instants| - 1].enabled) == Irqs(enabled) + Irqs(enable)
      ensures (forall irq :: irq in Irqs(enable) ==> irq in Irqs(enabled)) ==> instants == old(instants)
    {
      var irqState := EnterCritical();
      var nvicMask := enabled;
      ExitCritical(irqState);
      nvicMask := Disabled(nvicMask, enable);
      NonEmpty(nvicMask);
      assert Irqs(nvicMask) == {} <==> Irqs(enable) <= Irqs(enabled) by {
        assert Irqs(nvicMask) == Irqs(enable) - Irqs(enabled);
        assert Irqs(enable) <= Irqs(enabled) + Irqs(nvicMask);
      }
      if nvicMask.w0 != Zero() || nvicMask.w1 != Zero() {
        enabled := WriteIser(enabled, nvicMask);
        ghost var unmasked := Now();
        instants := instants + [unmasked];
        SameIrqs(unmasked.enabled, WriteIser(old(enabled), enable));
        enabled := WriteIcer(enabled, nvicMask);
        SameIrqs(enabled, old(enabled));
      }
    }

    /**
     Running any nest of sections: PRIMASK and the enabled set come back as they were, and
     the work is done in the states the sections promise.
     */
    method Execute(p: Prog)
      modifies this
      ensures Now() == old(Now())
      ensures work == old(work) + WorkStates(p, Now())
      ensures instants == old(instants) + Instants(p, Now())
      decreases p
    {
      match p {
        case Work =>
          work := work + [Now()];
        case Sequence(a, b) =>
          Execute(a);
          Execute(b);
        case Critical(body) =>
          var irqState := EnterCritical();
          Execute(body);
          ExitCritical(irqState);
        case NvicSection(disable, body) =>
          var nvicState := EnterNvicMask(disable);
          Execute(body);
          NvicEnableMask(nvicState);
          SameIrqs(enabled, old(enabled));
        case YieldCritical =>
          Yield();
        case YieldNvic(enable) =>
          YieldNvicMask(enable);
      }
    }
  }

  lemma NonEmpty(m: NvicMask)
    ensures m.w0 != Zero() || m.w1 != Zero() <==> Irqs(m) != {}
  {
    NonZero(m.w0);
    NonZero(m.w1);
    if true in m.w0 {
      var i :| 0 <= i < 32 && m.w0[i];
      assert i in Irqs(m);
    }
    if true in m.w1 {
      var i :| 0 <= i < 32 && m.w1[i];
      assert i + 32 in Irqs(m);
    }
  }
}
