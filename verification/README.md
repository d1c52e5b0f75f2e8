# Chain parameter selection in python-bitcointx

This project models how python-bitcointx chooses the Bitcoin network it works
for. The package `bitcointx` defines three parameter classes: `MainParams`,
`TestNetParams` and `RegTestParams`. Each one carries an RPC port, a map of
base58 version bytes and a bech32 human-readable prefix. The module-global
`params` holds the active one and starts as a `MainParams()` instance
(`bitcointx/__init__.py:49`). Two entry points reassign it:

- `SelectParams(name)` switches to a named preset. It first calls the core
  layer (`:90`). Then, for a known name, it writes one new
  preset instance into both `params` and `bitcointx.core.coreparams`
  (`:92-96`). Any other name raises `ValueError` (`:98`).
- `SelectAlternativeParams(alt_core, alt_main)` installs a class the caller
  supplies. It first calls the core layer with `alt_core` (`:64`). Then it
  checks that `alt_main` derives from `alt_core` (`:66`). Then it checks that
  `alt_main` declares every public field that `MainParams` declares
  (`:68-77`). Both checks raise `AssertionError`. On success `params` becomes
  the class `alt_main` itself, not an instance of it (`:79`). This function
  never writes `bitcointx.core.coreparams` itself; only the core call changes
  that slot.

- `params.dfy` (module `Params`) holds the preset records and a value view of
  Python classes. A class is its name, the attribute names its own body
  declares (its `__dict__`), and the names of its ancestors (what `issubclass`
  reads). The module also holds the field-name completeness check and its
  lemmas.
- `selection.dfy` (module `Selection`) holds the two slots as fields of the
  class `ChainParams`. The two entry points are methods that reassign these
  fields. Each method is proved equal to a transition function
  (`SelectParamsStep`, `SelectAlternativeStep`), and the lemmas are stated
  about those functions. `Run` replays any sequence of calls, and
  `RunKeepsAllFields` proves that no such sequence leaves `params` holding a
  class that lacks a field of `MainParams`.

The core layer (`bitcointx.core`) is not part of this model. Each call into it
(`_SelectCoreParams`, `_SelectAlternativeCoreParams`) is an argument of type
`CoreStep`. It either switched the core slot to some value, or it raised. If it
raised, the exception propagates and neither slot changes. The model assumes
that the core layer changes nothing before it raises.

Because the core call runs before the checks of this module, a rejected call
is not all-or-nothing. After a `ValueError` or a failed assertion, the core
slot holds what the core call installed, while `params` keeps its old value.
`RejectedAlternativeSplitsSlots` states this for `SelectAlternativeParams`,
and `SelectParamsStep` states it for `SelectParams`. The model's `Error`
variants follow the code: `UnknownChain` is the `ValueError`, and `NotDerived`
and `MissingFields` are the two assertions.

## Model

| member | source | states |
|---|---|---|
| `Params.PrefixesAreVersionBytes` | bitcointx/__init__.py:21-42 | every preset maps exactly PUBKEY_ADDR, SCRIPT_ADDR and SECRET_KEY, each to a value below 256 |
| `Params.PresetsDistinct` | bitcointx/__init__.py:21-42 | two presets have the same RPC port, or the same bech32 prefix, only if they are the same preset |
| `Params.PublicNames` | bitcointx/__init__.py:68-71 | the filtered name set keeps every declared name that does not start with `_`, and only such names |
| `Params.RequiredNamesAreMainFields` | bitcointx/__init__.py:21-26 | the public names MainParams declares are exactly RPC_PORT, BASE58_PREFIXES and BECH32_HRP; dunder entries and inherited core fields are not among them |
| `Params.MissingNames` | bitcointx/__init__.py:73-77 | the reported set is exactly the required names that the alternative class does not declare, and it is empty iff every required name is provided |
| `Params.SubsetCardinality` | bitcointx/__init__.py:73-74 | a subset is never larger than its superset, which is why the length conjunct of the assertion is redundant |
| `Params.CompletenessIsInclusion` | bitcointx/__init__.py:68-77 | the assertion as written (length test and empty difference) holds iff the required names are a subset of the provided ones, iff the missing set is empty |
| `Params.CompletenessByFieldName` | bitcointx/__init__.py:68-77 | an alternative class passes iff its own body declares RPC_PORT, BASE58_PREFIXES and BECH32_HRP |
| `Params.MainParamsIsComplete` | bitcointx/__init__.py:21-26 | MainParams passes its own completeness check |
| `Selection.InitialParamsAreMainnet` | bitcointx/__init__.py:49 | the import-time value of `params` is the mainnet preset: port 8332, prefixes 0/5/128, hrp "bc" |
| `Selection.NetworkNamed` | bitcointx/__init__.py:91-98 | a name selects a network iff it is "mainnet", "testnet" or "regtest" |
| `Selection.NamesRoundTrip` | bitcointx/__init__.py:91-96 | each network is selected by exactly one name |
| `Selection.SelectedPresetFields` | bitcointx/__init__.py:91-96 | after a successful SelectParams, `params` reads 8332/{0,5,128}/"bc", 18332/{111,196,239}/"tb" or 18443/{111,196,239}/"bcrt" for mainnet, testnet or regtest |
| `Selection.SelectParamsStep` | bitcointx/__init__.py:82-98 | it succeeds iff the core call succeeded and the name is known; on success both slots hold the same preset instance; on ValueError `params` is unchanged and the core slot keeps what the core call installed; a core failure changes nothing |
| `Selection.SelectAlternativeStep` | bitcointx/__init__.py:52-79 | it succeeds iff the core call succeeded, alt_main derives from alt_core and declares every required name; `params` becomes the class alt_main on success and is unchanged otherwise; the core slot is switched whenever the core call succeeded; derivation is tested before completeness; a derived class that misses a field raises MissingFields with the non-empty set difference required minus provided; a core failure is propagated and changes nothing |
| `Selection.SelectParamsOverwrites` | bitcointx/__init__.py:91-96 | a successful SelectParams leaves a state independent of the state before, so selecting the same chain twice equals selecting it once |
| `Selection.RejectedAlternativeSplitsSlots` | bitcointx/__init__.py:64-79 | a rejected alternative whose core class was accepted leaves `params` at its old value while the core slot already holds the new core class |
| `Selection.RunKeepsAllFields` | bitcointx/__init__.py:52-98 | after any sequence of selections, successful or not, `params` is a preset or a class that declares every field MainParams declares |
| `Selection.ChainParams.constructor` | bitcointx/__init__.py:49 | the slot `params` starts as the MainParams instance |
| `Selection.ChainParams.SelectParams` | bitcointx/__init__.py:82-98 | the new slots and the result are those of SelectParamsStep applied to the old slots; the field invariant is kept |
| `Selection.ChainParams.SelectAlternativeParams` | bitcointx/__init__.py:52-79 | the new slots and the result are those of SelectAlternativeStep applied to the old slots; the field invariant is kept |

## Left out

- `setup.py` is left out: it holds packaging metadata and reads a README file.
- The version string `__version__` (`bitcointx/__init__.py:18`) is a constant with no behaviour.
- The internals of `bitcointx.core` are left out: `_SelectCoreParams`, `_SelectAlternativeCoreParams` and the `Core*Params` classes. Each call into the core layer is an argument that either installs a value or raises. What the core layer installs, and the core-field check it runs on `alt_core`, are not modelled.
- `__dict__` and `issubclass` are not modelled as Python reflection. A class is given by an explicit set of declared names and an explicit set of ancestor names. Inheritance is not computed from base classes.
- Attribute values of an alternative class are not modelled, only its attribute names. The check itself looks only at names.
- Object identity is not modelled. Each `MainParams()` call creates a new object, but the model compares presets by value.
- Python's `-O` flag removes `assert` statements, so both checks of `SelectAlternativeParams` would be skipped. The model always runs them.
- Arguments of the wrong kind are not modelled: a non-string chain name, or a non-class argument to `issubclass` (which raises `TypeError`).
- Thread safety is not modelled. The code has no locking, and the model is sequential.
- The base58 and bech32 codecs that read the prefixes are not part of this model.
