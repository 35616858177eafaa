/** The parameter declarations of the test runtime, as data: each of the two
    namespaces lists its parameters with their value types and explicit
    indexes, and the aggregation assigns each namespace its own index. */
module Declarations {
  import opened Primitives

  /** The three parameters every namespace of the test runtime declares. */
  datatype Param = Key1 | Key2 | Key3

  /** The declared value type of a parameter. */
  datatype ValueType = U64Value | U32Value | U128Value

  datatype ParamDecl = ParamDecl(name: Param, value: ValueType, index: nat)

  /** The two namespaces merged into the runtime's parameter space. */
  datatype Namespace = Pallet1 | Pallet2

  datatype NamespaceDecl = NamespaceDecl(name: Namespace, params: seq<ParamDecl>, index: nat)

  const Pallet1Params: seq<ParamDecl> :=
    [ParamDecl(Key1, U64Value, 0), ParamDecl(Key2, U32Value, 1), ParamDecl(Key3, U128Value, 2)]

  const Pallet2Params: seq<ParamDecl> :=
    [ParamDecl(Key1, U64Value, 0), ParamDecl(Key2, U32Value, 2), ParamDecl(Key3, U128Value, 4)]

  /** The aggregated parameter space: pallet1 at index 0, pallet2 at index 3. */
  const RuntimeParameters: seq<NamespaceDecl> :=
    [NamespaceDecl(Pallet1, Pallet1Params, 0), NamespaceDecl(Pallet2, Pallet2Params, 3)]

  function ParamIndex(d: ParamDecl): nat { d.index }
  function ParamName(d: ParamDecl): Param { d.name }
  function NamespaceIndex(d: NamespaceDecl): nat { d.index }
  function NamespaceName(d: NamespaceDecl): Namespace { d.name }

  /** What the declaration macros insist on: within a namespace no index and
      no name is declared twice. */
  predicate WellFormedNamespace(nd: NamespaceDecl) {
    DistinctBy(nd.params, ParamIndex) && DistinctBy(nd.params, ParamName)
  }

  /** Namespaces of an aggregation have distinct indexes and names, and each
      is well formed. */
  predicate WellFormedAggregate(nds: seq<NamespaceDecl>) {
    && DistinctBy(nds, NamespaceIndex)
    && DistinctBy(nds, NamespaceName)
    && forall i :: 0 <= i < |nds| ==> WellFormedNamespace(nds[i])
  }

  /** The declared aggregation is well formed: 0/1/2 and 0/2/4 are pairwise
      distinct, and so are the namespace indexes 0 and 3. */
  lemma RuntimeParametersWellFormed()
    ensures WellFormedAggregate(RuntimeParameters)
  {
  }

  /** The declaration of a namespace. */
  function NamespaceDeclOf(ns: Namespace): (nd: NamespaceDecl)
    ensures nd in RuntimeParameters && nd.name == ns
  {
    match ns
    case Pallet1 => RuntimeParameters[0]
    case Pallet2 => RuntimeParameters[1]
  }

  /** The declaration of a parameter within a namespace. */
  function ParamDeclOf(ns: Namespace, p: Param): (pd: ParamDecl)
    ensures pd in NamespaceDeclOf(ns).params && pd.name == p
  {
    var params := NamespaceDeclOf(ns).params;
    match p
    case Key1 => params[0]
    case Key2 => params[1]
    case Key3 => params[2]
  }

  /** Every declared namespace is the one its name selects. */
  lemma NamespaceDeclOfDeclared(nd: NamespaceDecl)
    requires nd in RuntimeParameters
    ensures NamespaceDeclOf(nd.name) == nd
  {
  }

  /** Every declared parameter is the one its namespace and name select. */
  lemma ParamDeclOfDeclared(nd: NamespaceDecl, pd: ParamDecl)
    requires nd in RuntimeParameters && pd in nd.params
    ensures ParamDeclOf(nd.name, pd.name) == pd
  {
  }

  /** The value type of a parameter is fixed by the parameter alone, the same
      in both namespaces: Key1 holds a u64, Key2 a u32, Key3 a u128. */
  lemma ValueTypeByParameter(ns: Namespace, p: Param)
    ensures ParamDeclOf(ns, p).value == match p
                                       case Key1 => U64Value
                                       case Key2 => U32Value
                                       case Key3 => U128Value
  {
  }
}

/** The aggregated parameter key and value of the test runtime, the mapping of
    a key to its (namespace index, parameter index, payload) descriptor and
    back, and the per-key write authorisation. */
module Parameters {
  import opened Primitives
  import D = Declarations

  /** A key within one namespace: Key1 carries no payload, Key2 a u32, and
      Key3 a pair of u8. */
  datatype InnerKey = Key1 | Key2(arg: U32) | Key3(first: U8, second: U8)

  /** A key of the aggregated parameter space. */
  datatype Key = Pallet1(inner: InnerKey) | Pallet2(inner: InnerKey)

  /** A value within one namespace, one variant per parameter. */
  datatype InnerValue = Key1Value(v64: U64) | Key2Value(v32: U32) | Key3Value(v128: U128)

  /** A value of the aggregated parameter space. */
  datatype Value = Pallet1Value(inner: InnerValue) | Pallet2Value(inner: InnerValue)

  /** The payload a key carries besides its two indexes. */
  datatype Payload = Empty | U32Arg(x: U32) | U8PairArg(a: U8, b: U8)

  /** The durable identity of a key. */
  datatype Descriptor = Descriptor(namespace: nat, parameter: nat, payload: Payload)

  /** Why a descriptor or a number is not a key or a value of this space:
      the first three concern keys, the last a value too wide for its key. */
  datatype DecodeError = UnknownNamespace | UnknownParameter | MalformedPayload | ValueOutOfRange

  function NamespaceOf(k: Key): D.Namespace {
    match k
    case Pallet1(_) => D.Pallet1
    case Pallet2(_) => D.Pallet2
  }

  function ParamOf(ik: InnerKey): D.Param {
    match ik
    case Key1 => D.Key1
    case Key2(_) => D.Key2
    case Key3(_, _) => D.Key3
  }

  function PayloadOf(ik: InnerKey): Payload {
    match ik
    case Key1 => Empty
    case Key2(x) => U32Arg(x)
    case Key3(a, b) => U8PairArg(a, b)
  }

  function WrapKey(ns: D.Namespace, ik: InnerKey): (k: Key)
    ensures NamespaceOf(k) == ns && k.inner == ik
  {
    match ns
    case Pallet1 => Pallet1(ik)
    case Pallet2 => Pallet2(ik)
  }

  /** The descriptor of a key: its namespace's declared index, its
      parameter's declared index in that namespace, and its payload. */
  function DescriptorOf(k: Key): (d: Descriptor)
    ensures d.namespace == if k.Pallet1? then 0 else 3
    ensures d.parameter == match k.inner
                           case Key1 => 0
                           case Key2(_) => if k.Pallet1? then 1 else 2
                           case Key3(_, _) => if k.Pallet1? then 2 else 4
    ensures d.payload == PayloadOf(k.inner)
  {
    var ns := NamespaceOf(k);
    Descriptor(D.NamespaceDeclOf(ns).index,
               D.ParamDeclOf(ns, ParamOf(k.inner)).index,
               PayloadOf(k.inner))
  }

  /** The in-namespace key named `p` holding `payload`, if the payload has
      the shape that parameter declares. */
  function InnerKeyFrom(p: D.Param, payload: Payload): (r: Result<InnerKey, DecodeError>)
    ensures r.Ok? <==> exists ik :: ParamOf(ik) == p && PayloadOf(ik) == payload
    ensures r.Ok? ==> ParamOf(r.value) == p && PayloadOf(r.value) == payload
  {
    match payload
    case Empty =>
      if p == D.Key1 then assert ParamOf(Key1) == p; Ok(Key1)
      else Err(MalformedPayload)
    case U32Arg(x) =>
      if p == D.Key2 then assert ParamOf(Key2(x)) == p; Ok(Key2(x))
      else Err(MalformedPayload)
    case U8PairArg(a, b) =>
      if p == D.Key3 then assert ParamOf(Key3(a, b)) == p; Ok(Key3(a, b))
      else Err(MalformedPayload)
  }

  /** Resolves a descriptor through the declarations: the namespace index
      first, then the parameter index within it, then the payload. */
  function DecodeKey(d: Descriptor): (r: Result<Key, DecodeError>)
    ensures r.Ok? ==> PayloadOf(r.value.inner) == d.payload
  {
    match FindBy(D.RuntimeParameters, D.NamespaceIndex, d.namespace)
    case None => Err(UnknownNamespace)
    case Some(nd) =>
      match FindBy(nd.params, D.ParamIndex, d.parameter)
      case None => Err(UnknownParameter)
      case Some(pd) =>
        match InnerKeyFrom(pd.name, d.payload)
        case Err(e) => Err(e)
        case Ok(ik) => Ok(WrapKey(nd.name, ik))
  }

  /** Decoding the descriptor of any key gives that key back. */
  lemma KeyRoundTrip(k: Key)
    ensures DecodeKey(DescriptorOf(k)) == Ok(k)
  {
    D.RuntimeParametersWellFormed();
    var ns := NamespaceOf(k);
    var nd := D.NamespaceDeclOf(ns);
    var pd := D.ParamDeclOf(ns, ParamOf(k.inner));
    FindByDistinct(D.RuntimeParameters, D.NamespaceIndex, nd);
    assert D.WellFormedNamespace(nd);
    FindByDistinct(nd.params, D.ParamIndex, pd);
  }

  /** A descriptor decodes to a key only if it is that key's descriptor. */
  lemma DecodeKeyExact(d: Descriptor, k: Key)
    requires DecodeKey(d) == Ok(k)
    ensures DescriptorOf(k) == d
  {
    var nd := FindBy(D.RuntimeParameters, D.NamespaceIndex, d.namespace).value;
    var pd := FindBy(nd.params, D.ParamIndex, d.parameter).value;
    D.NamespaceDeclOfDeclared(nd);
    D.ParamDeclOfDeclared(nd, pd);
  }

  /** Distinct keys have distinct descriptors. */
  lemma DescriptorInjective(k1: Key, k2: Key)
    requires DescriptorOf(k1) == DescriptorOf(k2)
    ensures k1 == k2
  {
    KeyRoundTrip(k1);
    KeyRoundTrip(k2);
  }

  /** The (namespace index, parameter index) pairs the declarations name. */
  predicate KnownIndexes(d: Descriptor) {
    || (d.namespace == 0 && d.parameter in {0, 1, 2})
    || (d.namespace == 3 && d.parameter in {0, 2, 4})
  }

  /** Each error of `DecodeKey` has exactly one cause: a namespace index
      other than 0 and 3 is an unknown namespace; a known namespace with a
      parameter index it does not declare is an unknown parameter; and a
      declared pair whose payload fits no key of that parameter is a
      malformed payload. */
  lemma DecodeKeyErrors(d: Descriptor)
    ensures DecodeKey(d) == Err(UnknownNamespace) <==> d.namespace !in {0, 3}
    ensures DecodeKey(d) == Err(UnknownParameter) <==> d.namespace in {0, 3} && !KnownIndexes(d)
    ensures DecodeKey(d) == Err(MalformedPayload) <==> KnownIndexes(d) && forall k :: DescriptorOf(k) != d
  {
    D.RuntimeParametersWellFormed();
    if d.namespace in {0, 3} {
      var nd := D.RuntimeParameters[if d.namespace == 0 then 0 else 1];
      FindByDistinct(D.RuntimeParameters, D.NamespaceIndex, nd);
      if KnownIndexes(d) {
        var pd := nd.params[if d.namespace == 0 then d.parameter else d.parameter / 2];
        assert D.WellFormedNamespace(nd);
        FindByDistinct(nd.params, D.ParamIndex, pd);
        if DecodeKey(d).Ok? {
          DecodeKeyExact(d, DecodeKey(d).value);
        }
        forall k | DescriptorOf(k) == d
          ensures DecodeKey(d) == Ok(k)
        {
          KeyRoundTrip(k);
        }
      }
    }
  }

  // ---- values ----

  /** The declared value type of a key's parameter in its namespace. */
  function ValueTypeOf(k: Key): (t: D.ValueType)
    ensures t == match k.inner
                 case Key1 => D.U64Value
                 case Key2(_) => D.U32Value
                 case Key3(_, _) => D.U128Value
  {
    D.ParamDeclOf(NamespaceOf(k), ParamOf(k.inner)).value
  }

  /** The parameter whose variant a value is. */
  function ParamOfValue(iv: InnerValue): D.Param {
    match iv
    case Key1Value(_) => D.Key1
    case Key2Value(_) => D.Key2
    case Key3Value(_) => D.Key3
  }

  function TypeOfValue(iv: InnerValue): D.ValueType {
    match iv
    case Key1Value(_) => D.U64Value
    case Key2Value(_) => D.U32Value
    case Key3Value(_) => D.U128Value
  }

  function ValueNamespace(v: Value): D.Namespace {
    match v
    case Pallet1Value(_) => D.Pallet1
    case Pallet2Value(_) => D.Pallet2
  }

  /** A value belongs to a key when it lies in the key's namespace and is
      the variant of the key's parameter. */
  predicate Matches(k: Key, v: Value) {
    ValueNamespace(v) == NamespaceOf(k) && ParamOfValue(v.inner) == ParamOf(k.inner)
  }

  /** A value that belongs to a key holds the key's declared value type. */
  lemma MatchesDeclaredType(k: Key, v: Value)
    requires Matches(k, v)
    ensures TypeOfValue(v.inner) == ValueTypeOf(k)
  {
  }

  /** One past the largest number a value type holds. */
  function Bound(t: D.ValueType): nat {
    match t
    case U64Value => 0x1_0000_0000_0000_0000
    case U32Value => 0x1_0000_0000
    case U128Value => 0x1_0000_0000_0000_0000_0000_0000_0000_0000
  }

  /** The number a value holds. */
  function NumberOf(v: Value): (n: nat)
    ensures n < Bound(TypeOfValue(v.inner))
  {
    match v.inner
    case Key1Value(x) => x
    case Key2Value(x) => x
    case Key3Value(x) => x
  }

  /** Reads a number as the value of `k`'s parameter; a number too wide for
      the type that parameter declares is rejected. */
  function DecodeValue(k: Key, n: nat): (r: Result<Value, DecodeError>)
    ensures r.Ok? <==> n < Bound(ValueTypeOf(k))
    ensures r.Err? ==> r.error == ValueOutOfRange
    ensures r.Ok? ==> Matches(k, r.value) && TypeOfValue(r.value.inner) == ValueTypeOf(k)
  {
    if n >= Bound(ValueTypeOf(k)) then Err(ValueOutOfRange)
    else
      var iv := match k.inner
                case Key1 => Key1Value(n)
                case Key2(_) => Key2Value(n)
                case Key3(_, _) => Key3Value(n);
      match NamespaceOf(k)
      case Pallet1 => Ok(Pallet1Value(iv))
      case Pallet2 => Ok(Pallet2Value(iv))
  }

  /** A value read back under its own key is the value itself, and whatever
      a key reads holds the number it was read from. */
  lemma ValueRoundTrip(k: Key, v: Value, n: nat)
    ensures Matches(k, v) ==> DecodeValue(k, NumberOf(v)) == Ok(v)
    ensures DecodeValue(k, n).Ok? ==> NumberOf(DecodeValue(k, n).value) == n
  {
  }

  /** The value type of a key depends on its parameter only, not on its
      namespace nor on its payload. */
  lemma ValueTypeIndependent(k1: Key, k2: Key)
    requires ParamOf(k1.inner) == ParamOf(k2.inner)
    ensures ValueTypeOf(k1) == ValueTypeOf(k2)
  {
    D.ValueTypeByParameter(NamespaceOf(k1), ParamOf(k1.inner));
    D.ValueTypeByParameter(NamespaceOf(k2), ParamOf(k2.inner));
  }

  // ---- authorisation ----

  type AccountId = U128

  /** The origin of a call in the test runtime: root, a signed account, or
      the raw origin that carries no account (`NoOrigin`). */
  datatype Origin = Root | Signed(who: AccountId) | NoOrigin

  datatype BadOrigin = BadOrigin

  /** Succeeds exactly for the root origin. */
  function EnsureRoot(o: Origin): (r: Result<(), BadOrigin>)
    ensures r.Ok? <==> o == Root
  {
    if o.Root? then Ok(()) else Err(BadOrigin)
  }

  /** Succeeds exactly for a signed origin, giving its account. */
  function EnsureSigned(o: Origin): (r: Result<AccountId, BadOrigin>)
    ensures r.Ok? <==> exists a :: o == Signed(a)
    ensures r.Ok? ==> o == Signed(r.value)
  {
    match o
    case Signed(a) => Ok(a)
    case _ => Err(BadOrigin)
  }

  /** Whether `o` may write the parameter `k`: pallet1's parameters need the
      root origin, pallet2's a signed one. A refused origin is handed back. */
  function TryOrigin(o: Origin, k: Key): (r: Result<(), Origin>)
    ensures r.Err? ==> r.error == o
    ensures k.Pallet1? ==> (r.Ok? <==> o == Root)
    ensures k.Pallet2? ==> (r.Ok? <==> exists a :: o == Signed(a))
  {
    match k
    case Pallet1(_) =>
      (match EnsureRoot(o)
       case Err(_) => Err(o)
       case Ok(_) => Ok(()))
    case Pallet2(_) =>
      (match EnsureSigned(o)
       case Err(_) => Err(o)
       case Ok(_) => Ok(()))
  }

  /** The benchmarking helper never offers an origin that succeeds. */
  function TrySuccessfulOrigin(k: Key): (r: Result<Origin, ()>)
    ensures r.Err?
  {
    Err(())
  }

  /** No origin may write both a pallet1 and a pallet2 parameter: root is
      refused for pallet2 and every signed origin for pallet1. */
  lemma AuthorisationIsolation(o: Origin, k1: Key, k2: Key)
    requires k1.Pallet1? && k2.Pallet2?
    ensures !(TryOrigin(o, k1).Ok? && TryOrigin(o, k2).Ok?)
    ensures TryOrigin(Root, k2) == Err(Root)
    ensures forall a :: TryOrigin(Signed(a), k1) == Err(Signed(a))
  {
  }

  /** The decision depends on the key's namespace only, never on which
      parameter or which payload it carries. */
  lemma AuthorisationByNamespace(o: Origin, k1: Key, k2: Key)
    requires NamespaceOf(k1) == NamespaceOf(k2)
    ensures TryOrigin(o, k1) == TryOrigin(o, k2)
  {
  }
}
