# Parameter registry and teleport filters of the ORML test runtimes

This project models, in Dafny, the decision logic of two test runtimes of the
Open Runtime Module Library.

The parameters runtime declares two namespaces of typed settings:

- pallet1 declares `Key1` (no payload, `u64` value) at index 0, `Key2(u32)` (`u32` value) at index 1 and `Key3((u8, u8))` (`u128` value) at index 2.
- pallet2 declares the same three parameters at indexes 0, 2 and 4.
- The aggregated parameter space places pallet1 at namespace index 0 and pallet2 at namespace index 3.
- Writing a parameter is authorised per key: pallet1's keys need the root origin, pallet2's a signed origin, and a refused origin is handed back unchanged.

The declarations are modelled as data (module `Declarations`): one table per
namespace and one for the aggregation, with the distinctness of every index
and name proved. A key is identified by its descriptor, the triple of its
namespace index, its parameter index and its payload. `DecodeKey` resolves a
descriptor through the tables and reports an unknown namespace, an unknown
parameter or a payload of the wrong shape. The descriptor is proved to be a
bijection onto the descriptors that decode. A value is checked against its key
by the width of the key's declared value type (module `Parameters`).

The teleport runtime (module `Teleport`) contributes three things:

- the location filter `ParentOrParachains`, which accepts an account on this chain, an account on the parent, or an account behind parachain 1, 2, 3, 4 or 100 of the parent;
- the conversion of a 32-byte account into a local location;
- existential deposits that are zero for every currency.

Module `Primitives` holds the option and result types, the fixed-width
unsigned integer types and a lookup of a table entry by its key.

## Model

| member | source | states |
|---|---|---|
| `Declarations.RuntimeParametersWellFormed` | parameters/src/mock.rs:22-45 | indexes 0/1/2 of pallet1 and 0/2/4 of pallet2 are pairwise distinct, parameter names are distinct within each namespace, and the namespace indexes 0 and 3 and names are distinct |
| `Declarations.NamespaceDeclOf` | parameters/src/mock.rs:40-45 | each namespace has a declaration in the aggregation, carrying its own name |
| `Declarations.ParamDeclOf` | parameters/src/mock.rs:22-39 | each parameter has a declaration in its namespace, carrying its own name |
| `Declarations.NamespaceDeclOfDeclared` | parameters/src/mock.rs:40-45 | every declared namespace is the one its name selects, so names determine declarations |
| `Declarations.ParamDeclOfDeclared` | parameters/src/mock.rs:22-39 | every declared parameter is the one its namespace and name select |
| `Declarations.ValueTypeByParameter` | parameters/src/mock.rs:22-39 | in both namespaces Key1 holds a u64, Key2 a u32 and Key3 a u128 |
| `Parameters.WrapKey` | parameters/src/mock.rs:40-45 | wrapping an in-namespace key into the aggregated key keeps the namespace and the inner key |
| `Parameters.DescriptorOf` | parameters/src/mock.rs:22-45 | a pallet1 key has namespace index 0 and a pallet2 key 3; Key1, Key2 and Key3 have parameter indexes 0, 1, 2 under pallet1 and 0, 2, 4 under pallet2; the payload is the key's own |
| `Parameters.InnerKeyFrom` | parameters/src/mock.rs:24-28 | an in-namespace key is built exactly when some key of that parameter carries the payload (Key1 none, Key2 a u32, Key3 a pair of u8), and the key built carries that parameter and payload |
| `Parameters.DecodeKey` | parameters/src/mock.rs:22-45 | a decoded key carries the descriptor's payload |
| `Parameters.KeyRoundTrip` | parameters/src/mock.rs:22-45 | decoding the descriptor of any key gives the key back |
| `Parameters.DecodeKeyExact` | parameters/src/mock.rs:22-45 | a descriptor decodes to a key only if it is that key's descriptor |
| `Parameters.DescriptorInjective` | parameters/src/mock.rs:22-45 | distinct keys have distinct descriptors |
| `Parameters.DecodeKeyErrors` | parameters/src/mock.rs:22-45 | decoding reports an unknown namespace exactly for a namespace index other than 0 and 3, an unknown parameter exactly for a known namespace with an undeclared parameter index, and a malformed payload exactly for a declared pair whose descriptor belongs to no key |
| `Parameters.ValueTypeOf` | parameters/src/mock.rs:25-36 | a Key1 key of either namespace has value type u64, a Key2 key u32 and a Key3 key u128 |
| `Parameters.MatchesDeclaredType` | parameters/src/mock.rs:25-36 | a value that is the variant of a key's parameter in the key's namespace holds the key's declared value type |
| `Parameters.NumberOf` | parameters/src/mock.rs:25-36 | the number a value holds fits the width of its declared type |
| `Parameters.DecodeValue` | parameters/src/mock.rs:25-36 | a number is read under a key exactly when it fits the key's declared type, otherwise the error is an out-of-range value; the value read is the variant of the key's parameter in the key's namespace and holds the declared type |
| `Parameters.ValueRoundTrip` | parameters/src/mock.rs:25-36 | a value matching a key reads back as itself, and a value read holds the number it was read from |
| `Parameters.ValueTypeIndependent` | parameters/src/mock.rs:22-39 | the value type of a key depends on its parameter only, not on its namespace or payload |
| `Parameters.EnsureRoot` | parameters/src/mock.rs:55 | the root check succeeds exactly for the root origin |
| `Parameters.EnsureSigned` | parameters/src/mock.rs:59 | the signed check succeeds exactly for a signed origin and yields its account |
| `Parameters.TryOrigin` | parameters/src/mock.rs:52-63 | a pallet1 key is authorised iff the origin is root, a pallet2 key iff the origin is signed, and a refused origin is returned unchanged |
| `Parameters.TrySuccessfulOrigin` | parameters/src/mock.rs:66-68 | the benchmarking helper always fails |
| `Parameters.AuthorisationIsolation` | parameters/src/mock.rs:52-63 | no origin is authorised for both a pallet1 and a pallet2 key; root is refused for pallet2 and every signed origin for pallet1 |
| `Parameters.AuthorisationByNamespace` | parameters/src/mock.rs:53-62 | keys of the same namespace get the same decision for every origin, whatever their parameter and payload |
| `Teleport.ParentOrParachains` | xtokens/src/mock/para_teleport.rs:203-215 | an accepted location has at most one parent, one or two junctions, and ends in an account junction |
| `Teleport.AcceptedWithoutParents` | xtokens/src/mock/para_teleport.rs:207 | with no parents, a location is accepted iff its interior is exactly one account junction |
| `Teleport.AcceptedWithOneParent` | xtokens/src/mock/para_teleport.rs:208-213 | with one parent, a location is accepted iff its interior is one account junction, or a parachain in {1, 2, 3, 4, 100} followed by an account junction |
| `Teleport.Rejected` | xtokens/src/mock/para_teleport.rs:205-214 | two or more parents, an empty interior, three or more junctions, or a non-whitelisted parachain are rejected |
| `Teleport.AccountFieldsIrrelevant` | xtokens/src/mock/para_teleport.rs:207-213 | replacing the network and id of an account junction never changes acceptance |
| `Teleport.AccountIdToLocation` | xtokens/src/mock/para_teleport.rs:188-194 | the location has no parents, its first junction is the account with no network, and it passes the filter |
| `Teleport.AccountIdToLocationInjective` | xtokens/src/mock/para_teleport.rs:188-194 | distinct accounts give distinct locations |
| `Teleport.ExistentialDeposits` | xtokens/src/mock/para_teleport.rs:56-60 | every currency's existential deposit is zero |

## Left out

- The runtime configuration blocks and `construct_runtime!` of both files: type wiring with no behaviour of its own.
- The XCM executor, router, barrier, weigher, origin converters and teleport currency adapter: message plumbing over other crates.
- `ExtBuilder`: it sets up test storage, which is I/O.
- The parameter store, `set_parameter`, the change event, and declared defaults: they live in the pallet and in the macro bodies, which are not part of this model. Nothing is stateful here.
- The byte encoding of keys and values: the model identifies a key by its (namespace index, parameter index, payload) descriptor and a value by its number, without a byte layout.
- Parameters.EnsureRoot and Parameters.EnsureSigned are defined by the system pallet, which is not part of this model; they are modelled by the behaviour their names promise over the three raw origins root, signed and none.
- Teleport.ParentOrParachains: network identifiers are collapsed to Polkadot, Kusama and one catch-all, and junction kinds other than AccountId32 and Parachain to one catch-all; the filter tells no other kinds apart.
- Teleport.ParentOrParachains: the bound of eight junctions on an interior is not imposed; the filter rejects every interior longer than two anyway.
- Teleport.ExistentialDeposits: the currency type is declared in the parent mock module (xtokens/src/mock/mod.rs), which is not modelled, so the function is generic over it.
- The weight and location constants (`UniversalLocation`, `SelfLocation`, `RelayChainOrigin`, the weight limits): fixed configuration values.
