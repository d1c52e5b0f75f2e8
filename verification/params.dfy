/**
 * The chain parameter records of python-bitcointx (bitcointx/__init__.py) and
 * the structural "declares every field MainParams declares" rule that
 * SelectAlternativeParams applies to a caller-supplied class.
 *
 * Python classes are values here: a class is described by its name, the
 * attribute names its own body declares (what `__dict__` lists) and the names
 * of the classes it derives from (what `issubclass` consults).
 */
module Params {

  /** The three built-in networks. */
  datatype Network = Main | TestNet | RegTest

  /** Keys of the base58 version-byte map. */
  const PUBKEY_ADDR: string := "PUBKEY_ADDR"
  const SCRIPT_ADDR: string := "SCRIPT_ADDR"
  const SECRET_KEY: string := "SECRET_KEY"

  /** Names of the class attributes MainParams declares. */
  const RPC_PORT: string := "RPC_PORT"
  const BASE58_PREFIXES: string := "BASE58_PREFIXES"
  const BECH32_HRP: string := "BECH32_HRP"

  /** The fields one of MainParams, TestNetParams, RegTestParams adds to its core base. */
  datatype ParamRecord = ParamRecord(rpcPort: nat, base58Prefixes: map<string, nat>, bech32Hrp: string)

  /** The class attributes of the preset for `n`. */
  function Record(n: Network): ParamRecord
  {
    match n
    case Main =>
      ParamRecord(8332, map[PUBKEY_ADDR := 0, SCRIPT_ADDR := 5, SECRET_KEY := 128], "bc")
    case TestNet =>
      ParamRecord(18332, map[PUBKEY_ADDR := 111, SCRIPT_ADDR := 196, SECRET_KEY := 239], "tb")
    case RegTest =>
      ParamRecord(18443, map[PUBKEY_ADDR := 111, SCRIPT_ADDR := 196, SECRET_KEY := 239], "bcrt")
  }

  /** Every preset maps exactly the three prefix keys, each to a one-byte version value. */
  lemma PrefixesAreVersionBytes(n: Network)
    ensures Record(n).base58Prefixes.Keys == {PUBKEY_ADDR, SCRIPT_ADDR, SECRET_KEY}
    ensures forall k :: k in Record(n).base58Prefixes ==> Record(n).base58Prefixes[k] < 256
  {
  }

  /** The three presets are told apart by their RPC port and by their bech32 prefix. */
  lemma PresetsDistinct(n: Network, m: Network)
    ensures Record(n).rpcPort == Record(m).rpcPort <==> n == m
    ensures Record(n).bech32Hrp == Record(m).bech32Hrp <==> n == m
  {
  }

  /** A Python class: its name, the names its own body declares, and the names of all its base classes. */
  datatype ClassInfo = ClassInfo(name: string, declared: set<string>, ancestors: set<string>)

  /** The derivation test: a class is a subclass of itself and of each of its ancestors. */
  predicate IsSubclass(sub: ClassInfo, sup: ClassInfo)
  {
    sub == sup || sup.name in sub.ancestors
  }

  /** A name is private when its first character is an underscore. */
  predicate IsPrivate(pn: string)
  {
    |pn| > 0 && pn[0] == '_'
  }

  /** The names a class body declares, private ones dropped. */
  function PublicNames(declared: set<string>): (r: set<string>)
    ensures r <= declared
    ensures forall pn :: pn in r ==> !IsPrivate(pn)
    ensures forall pn :: pn in declared && pn !in r ==> IsPrivate(pn)
  {
    set pn | pn in declared && !IsPrivate(pn)
  }

  /**
   * The class MainParams: its body declares the three fields; Python adds
   * `__module__` and `__doc__` to its `__dict__`. It derives from
   * CoreMainParams, itself a CoreChainParams.
   */
  const MainParamsClass: ClassInfo :=
    ClassInfo("MainParams",
              {"__module__", RPC_PORT, BASE58_PREFIXES, BECH32_HRP, "__doc__"},
              {"CoreMainParams", "CoreChainParams", "object"})

  /** The public names MainParams itself declares: what an alternative class must declare too. */
  function RequiredNames(): set<string>
  {
    PublicNames(MainParamsClass.declared)
  }

  /** The required names are exactly the three fields MainParams adds; inherited core fields are not among them. */
  lemma RequiredNamesAreMainFields()
    ensures RequiredNames() == {RPC_PORT, BASE58_PREFIXES, BECH32_HRP}
  {
    assert IsPrivate("__module__");
    assert IsPrivate("__doc__");
    assert !IsPrivate(RPC_PORT) && !IsPrivate(BASE58_PREFIXES) && !IsPrivate(BECH32_HRP);
  }

  /** The required names an alternative class does not declare: what a failed check reports. */
  function MissingNames(alt: ClassInfo): (r: set<string>)
    ensures r <= RequiredNames()
    ensures forall pn :: pn in r ==> pn !in alt.declared
    ensures forall pn :: pn in RequiredNames() && pn !in alt.declared ==> pn in r
    ensures r == {} <==> RequiredNames() <= PublicNames(alt.declared)
  {
    RequiredNames() - PublicNames(alt.declared)
  }

  /**
   * The completeness assertion as the code states it: the alternative class
   * has at least as many public names as MainParams, and no required name is
   * left over once its public names are taken away.
   */
  predicate DeclaresAllFields(alt: ClassInfo)
  {
    var provided := PublicNames(alt.declared);
    var required := RequiredNames();
    |provided| >= |required| && |required - provided| == 0
  }

  /** A subset is never larger than its superset. */
  lemma {:induction false} SubsetCardinality(a: set<string>, b: set<string>)
    requires a <= b
    ensures |a| <= |b|
  {
    assert b == a + (b - a);
    assert a !! (b - a);
  }

  /**
   * The completeness check passes exactly when every required name is a
   * public name of `alt`; the length conjunct adds nothing to the subset test,
   * and the reported missing set is empty exactly when the check passes.
   */
  lemma CompletenessIsInclusion(alt: ClassInfo)
    ensures DeclaresAllFields(alt) <==> RequiredNames() <= PublicNames(alt.declared)
    ensures DeclaresAllFields(alt) <==> MissingNames(alt) == {}
  {
    var provided := PublicNames(alt.declared);
    var required := RequiredNames();
    if required <= provided {
      SubsetCardinality(required, provided);
      assert required - provided == {};
    } else {
      var pn :| pn in required && pn !in provided;
      assert pn in required - provided;
    }
  }

  /** A class passes the check iff it declares each of RPC_PORT, BASE58_PREFIXES and BECH32_HRP itself. */
  lemma CompletenessByFieldName(alt: ClassInfo)
    ensures DeclaresAllFields(alt) <==>
              RPC_PORT in alt.declared && BASE58_PREFIXES in alt.declared && BECH32_HRP in alt.declared
  {
    CompletenessIsInclusion(alt);
    RequiredNamesAreMainFields();
    assert !IsPrivate(RPC_PORT) && !IsPrivate(BASE58_PREFIXES) && !IsPrivate(BECH32_HRP);
  }

  /** MainParams itself passes its own completeness check. */
  lemma MainParamsIsComplete()
    ensures DeclaresAllFields(MainParamsClass)
  {
    CompletenessIsInclusion(MainParamsClass);
  }
}
