/**
 * The selection state machine of bitcointx/__init__.py: the module-global
 * slot `params`, the mirrored slot `bitcointx.core.coreparams`, and the two
 * entry points SelectParams and SelectAlternativeParams that reassign them.
 *
 * The core layer (`bitcointx.core`) is not part of this model. Each call
 * into it is a `CoreStep` argument: either it switched the core slot to some
 * value, or it raised.
 */
module Selection {
  import opened Params

  datatype Option<T> = None | Some(value: T)

  /** What the slot `params` can hold. */
  datatype ParamsValue =
    | Instance(net: Network)       // MainParams(), TestNetParams() or RegTestParams()
    | ClassObject(cls: ClassInfo)  // a class stored as it is, by SelectAlternativeParams

  /** What the slot `bitcointx.core.coreparams` can hold. */
  datatype CoreSlot =
    | Shared(value: ParamsValue)   // the very value this layer also put into `params`
    | CoreOwned(cls: ClassInfo)    // a value the core layer installed itself, known by its class

  /** The outcome of one call into the core layer. */
  datatype CoreStep =
    | Switched(installed: CoreSlot)
    | Failed(message: string)

  /** The exceptions the two entry points raise. */
  datatype Error =
    | UnknownChain(name: string)          // ValueError naming the unknown chain
    | NotDerived                           // AssertionError from the issubclass test
    | MissingFields(missing: set<string>)  // AssertionError naming the undefined fields
    | CoreRaised(message: string)          // propagated unchanged from bitcointx.core

  datatype Outcome = Done | Raised(error: Error)

  /** Both global slots. */
  datatype State = State(params: ParamsValue, coreparams: CoreSlot)

  /** The state after a call, and how the call ended. */
  datatype Transition = Transition(after: State, outcome: Outcome)

  /** The value the slot `params` holds when the module is imported: a MainParams instance. */
  function InitialParams(): ParamsValue
  {
    Instance(Main)
  }

  /** The chain names SelectParams accepts. */
  function NetworkNamed(name: string): (r: Option<Network>)
    ensures r.Some? <==> name in {"mainnet", "testnet", "regtest"}
  {
    if name == "mainnet" then Some(Main)
    else if name == "testnet" then Some(TestNet)
    else if name == "regtest" then Some(RegTest)
    else None
  }

  /** The name SelectParams takes for each network. */
  function NameOf(n: Network): string
  {
    match n
    case Main => "mainnet"
    case TestNet => "testnet"
    case RegTest => "regtest"
  }

  /** Each network has exactly one name, and NetworkNamed inverts NameOf. */
  lemma NamesRoundTrip(name: string, n: Network)
    ensures NetworkNamed(NameOf(n)) == Some(n)
    ensures NetworkNamed(name) == Some(n) ==> name == NameOf(n)
  {
  }

  /**
   * What a read of `params` sees after a successful SelectParams(name): the
   * port, prefixes and bech32 prefix of the preset that name stands for.
   */
  lemma SelectedPresetFields(s: State, name: string, core: CoreStep)
    requires SelectParamsStep(s, name, core).outcome == Done
    ensures SelectParamsStep(s, name, core).after.params.Instance?
    ensures name == "mainnet" ==>
              Record(SelectParamsStep(s, name, core).after.params.net) ==
              ParamRecord(8332, map[PUBKEY_ADDR := 0, SCRIPT_ADDR := 5, SECRET_KEY := 128], "bc")
    ensures name == "testnet" ==>
              Record(SelectParamsStep(s, name, core).after.params.net) ==
              ParamRecord(18332, map[PUBKEY_ADDR := 111, SCRIPT_ADDR := 196, SECRET_KEY := 239], "tb")
    ensures name == "regtest" ==>
              Record(SelectParamsStep(s, name, core).after.params.net) ==
              ParamRecord(18443, map[PUBKEY_ADDR := 111, SCRIPT_ADDR := 196, SECRET_KEY := 239], "bcrt")
  {
  }

  /** The slot `params` as it is at import time: a MainParams instance with port 8332, prefixes 0/5/128 and "bc". */
  lemma InitialParamsAreMainnet()
    ensures Record(InitialParams().net) ==
              ParamRecord(8332, map[PUBKEY_ADDR := 0, SCRIPT_ADDR := 5, SECRET_KEY := 128], "bc")
  {
  }

  /**
   * SelectParams(name): the core layer is switched first; then a known name
   * puts one fresh preset instance into both slots, and any other name raises
   * ValueError with `params` left as it was.
   */
  function SelectParamsStep(s: State, name: string, core: CoreStep): (t: Transition)
    ensures t.outcome == Done <==> core.Switched? && NetworkNamed(name).Some?
    ensures t.outcome == Done ==>
              t.after.params == Instance(NetworkNamed(name).value) &&
              t.after.coreparams == Shared(t.after.params)
    ensures t.outcome != Done ==> t.after.params == s.params
    ensures core.Failed? ==> t == Transition(s, Raised(CoreRaised(core.message)))
    ensures core.Switched? && NetworkNamed(name).None? ==>
              t.outcome == Raised(UnknownChain(name)) && t.after.coreparams == core.installed
  {
    match core
    case Failed(message) => Transition(s, Raised(CoreRaised(message)))
    case Switched(installed) =>
      match NetworkNamed(name)
      case Some(n) => Transition(State(Instance(n), Shared(Instance(n))), Done)
      case None => Transition(State(s.params, installed), Raised(UnknownChain(name)))
  }

  /**
   * SelectAlternativeParams(alt_core, alt_main): the core layer is switched
   * first; then alt_main must derive from alt_core, then it must declare
   * every public name MainParams declares; only then does `params` become the
   * class alt_main itself.
   */
  function SelectAlternativeStep(s: State, altCore: ClassInfo, altMain: ClassInfo, core: CoreStep): (t: Transition)
    ensures t.outcome == Done <==>
              core.Switched? && IsSubclass(altMain, altCore) &&
              RequiredNames() <= PublicNames(altMain.declared)
    ensures t.after.params == (if t.outcome == Done then ClassObject(altMain) else s.params)
    ensures t.after.coreparams == (if core.Switched? then core.installed else s.coreparams)
    ensures core.Failed? ==> t == Transition(s, Raised(CoreRaised(core.message)))
    ensures core.Switched? && !IsSubclass(altMain, altCore) ==>
              t.outcome == Raised(NotDerived)
    ensures core.Switched? && IsSubclass(altMain, altCore) &&
            !(RequiredNames() <= PublicNames(altMain.declared)) ==>
              t.outcome == Raised(MissingFields(RequiredNames() - PublicNames(altMain.declared)))
    ensures t.outcome.Raised? && t.outcome.error.MissingFields? ==>
              IsSubclass(altMain, altCore) &&
              t.outcome.error.missing == RequiredNames() - PublicNames(altMain.declared) &&
              t.outcome.error.missing != {}
  {
    match core
    case Failed(message) => Transition(s, Raised(CoreRaised(message)))
    case Switched(installed) =>
      var s' := State(s.params, installed);
      if !IsSubclass(altMain, altCore) then
        Transition(s', Raised(NotDerived))
      else if !DeclaresAllFields(altMain) then
        CompletenessIsInclusion(altMain);
        Transition(s', Raised(MissingFields(MissingNames(altMain))))
      else
        CompletenessIsInclusion(altMain);
        Transition(State(ClassObject(altMain), installed), Done)
  }

  /**
   * What the rest of the library relies on when it reads `params`: it is a
   * built-in preset, or a class that declares every field MainParams declares.
   */
  predicate HasAllFields(p: ParamsValue)
  {
    match p
    case Instance(_) => true
    case ClassObject(cls) => RequiredNames() <= PublicNames(cls.declared)
  }

  /** A call of one of the two entry points, with the core layer's response to it. */
  datatype Call =
    | SelectParamsCall(name: string, core: CoreStep)
    | SelectAlternativeCall(altCore: ClassInfo, altMain: ClassInfo, core: CoreStep)

  function Apply(s: State, c: Call): Transition
  {
    match c
    case SelectParamsCall(name, core) => SelectParamsStep(s, name, core)
    case SelectAlternativeCall(altCore, altMain, core) => SelectAlternativeStep(s, altCore, altMain, core)
  }

  /** The state after a sequence of calls, whatever each of them raised. */
  function Run(s: State, calls: seq<Call>): State
    decreases |calls|
  {
    if calls == [] then s else Run(Apply(s, calls[0]).after, calls[1..])
  }

  /** No sequence of calls puts into `params` a class that misses a field of MainParams. */
  lemma {:induction false} RunKeepsAllFields(s: State, calls: seq<Call>)
    requires HasAllFields(s.params)
    ensures HasAllFields(Run(s, calls).params)
    decreases |calls|
  {
    if calls != [] {
      var t := Apply(s, calls[0]);
      assert HasAllFields(t.after.params);
      RunKeepsAllFields(t.after, calls[1..]);
    }
  }

  /**
   * A successful SelectParams overwrites both slots without looking at them:
   * the state it leaves does not depend on the state before, so selecting the
   * same chain twice leaves what selecting it once left.
   */
  lemma SelectParamsOverwrites(s1: State, s2: State, name: string, core1: CoreStep, core2: CoreStep)
    requires SelectParamsStep(s1, name, core1).outcome == Done
    requires core2.Switched?
    ensures SelectParamsStep(s2, name, core2) == SelectParamsStep(s1, name, core1)
    ensures SelectParamsStep(SelectParamsStep(s1, name, core1).after, name, core2) == SelectParamsStep(s1, name, core1)
  {
  }

  /**
   * The core switch is not undone when a later check fails: after a rejected
   * alternative whose core class the core layer accepted, `params` still holds
   * the old value while the core slot holds the new core class.
   */
  lemma RejectedAlternativeSplitsSlots(s: State, altCore: ClassInfo, altMain: ClassInfo)
    requires !IsSubclass(altMain, altCore) || !DeclaresAllFields(altMain)
    ensures var t := SelectAlternativeStep(s, altCore, altMain, Switched(CoreOwned(altCore)));
            t.outcome.Raised? && t.after.params == s.params && t.after.coreparams == CoreOwned(altCore)
  {
    CompletenessIsInclusion(altMain);
  }

  /**
   * The process-global slots. `params` starts as a MainParams instance; the
   * core slot starts as whatever bitcointx.core set on import.
   */
  class ChainParams {
    var params: ParamsValue
    var coreparams: CoreSlot

    function Current(): State
      reads this
    {
      State(params, coreparams)
    }

    constructor (coreAtImport: CoreSlot)
      ensures params == InitialParams()
      ensures coreparams == coreAtImport
    {
      params := InitialParams();
      coreparams := coreAtImport;
    }

    /** Reassigns the slots as SelectParams(name) does. */
    method SelectParams(name: string, core: CoreStep) returns (r: Outcome)
      modifies this
      ensures Transition(Current(), r) == SelectParamsStep(old(Current()), name, core)
      ensures old(HasAllFields(params)) ==> HasAllFields(params)
    {
      match core {
        case Failed(message) =>
          return Raised(CoreRaised(message));
        case Switched(installed) =>
          coreparams := installed;
      }
      if name == "mainnet" {
        var p := Instance(Main);
        params := p;
        coreparams := Shared(p);
      } else if name == "testnet" {
        var p := Instance(TestNet);
        params := p;
        coreparams := Shared(p);
      } else if name == "regtest" {
        var p := Instance(RegTest);
        params := p;
        coreparams := Shared(p);
      } else {
        return Raised(UnknownChain(name));
      }
      r := Done;
    }

    /** Reassigns the slots as SelectAlternativeParams(alt_core, alt_main) does. */
    method SelectAlternativeParams(altCore: ClassInfo, altMain: ClassInfo, core: CoreStep) returns (r: Outcome)
      modifies this
      ensures Transition(Current(), r) == SelectAlternativeStep(old(Current()), altCore, altMain, core)
      ensures old(HasAllFields(params)) ==> HasAllFields(params)
    {
      match core {
        case Failed(message) =>
          return Raised(CoreRaised(message));
        case Switched(installed) =>
          coreparams := installed;
      }
      if !IsSubclass(altMain, altCore) {
        return Raised(NotDerived);
      }
      var paramNames := set pn | pn in altMain.declared && !IsPrivate(pn);
      var requiredParamNames := set pn | pn in MainParamsClass.declared && !IsPrivate(pn);
      assert paramNames == PublicNames(altMain.declared);
      if !(|paramNames| >= |requiredParamNames| && |requiredParamNames - paramNames| == 0) {
        return Raised(MissingFields(requiredParamNames - paramNames));
      }
      CompletenessIsInclusion(altMain);
      params := ClassObject(altMain);
      r := Done;
    }
  }
}
