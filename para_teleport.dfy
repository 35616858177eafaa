/** The location filter, the account-to-location conversion and the
    existential deposits of the teleporting test parachain. */
module Teleport {
  import opened Primitives

  /** A consensus network; only the variants the filter and the conversion
      mention are told apart. */
  datatype NetworkId = Polkadot | Kusama | OtherNetwork(tag: nat)

  type Bytes32 = s: seq<U8> | |s| == 32 witness seq(32, _ => 0)

  /** A step of a location's interior: a 32-byte account on an optional
      network, a parachain, or any other kind of junction. */
  datatype Junction =
    | AccountId32(network: Option<NetworkId>, id: Bytes32)
    | Parachain(paraId: U32)
    | OtherJunction(tag: nat)

  /** A location: how many levels up, then the interior junctions. */
  datatype Location = Location(parents: U8, interior: seq<Junction>)

  type AccountId = Bytes32

  /** The parachains whose accounts the filter accepts behind the parent. */
  const WhitelistedParachains: set<nat> := {1, 2, 3, 4, 100}

  /** Accepts an account on this chain, an account on the parent, or an
      account on one of the parachains 1, 2, 3, 4 and 100 behind the parent. */
  predicate ParentOrParachains(l: Location)
    ensures ParentOrParachains(l) ==> l.parents <= 1 && 1 <= |l.interior| <= 2
    ensures ParentOrParachains(l) ==> l.interior[|l.interior| - 1].AccountId32?
  {
    var n, j := l.parents, l.interior;
    || (n == 0 && |j| == 1 && j[0].AccountId32?)
    || (n == 1 && |j| == 1 && j[0].AccountId32?)
    || (n == 1 && |j| == 2 && j[0] == Parachain(1) && j[1].AccountId32?)
    || (n == 1 && |j| == 2 && j[0] == Parachain(2) && j[1].AccountId32?)
    || (n == 1 && |j| == 2 && j[0] == Parachain(3) && j[1].AccountId32?)
    || (n == 1 && |j| == 2 && j[0] == Parachain(4) && j[1].AccountId32?)
    || (n == 1 && |j| == 2 && j[0] == Parachain(100) && j[1].AccountId32?)
  }

  /** With no parents, exactly a single account junction is accepted. */
  lemma AcceptedWithoutParents(l: Location)
    requires l.parents == 0
    ensures ParentOrParachains(l) <==> |l.interior| == 1 && l.interior[0].AccountId32?
  {
  }

  /** With one parent, a single account junction is accepted, and so is an
      account behind a whitelisted parachain; nothing else. */
  lemma AcceptedWithOneParent(l: Location)
    requires l.parents == 1
    ensures ParentOrParachains(l) <==>
              || (|l.interior| == 1 && l.interior[0].AccountId32?)
              || (&& |l.interior| == 2
                  && l.interior[0].Parachain?
                  && l.interior[0].paraId in WhitelistedParachains
                  && l.interior[1].AccountId32?)
  {
  }

  /** Two or more parents, an empty interior, three or more junctions, and a
      parachain outside the whitelist are all rejected. */
  lemma Rejected(l: Location)
    ensures l.parents >= 2 ==> !ParentOrParachains(l)
    ensures |l.interior| == 0 || |l.interior| >= 3 ==> !ParentOrParachains(l)
    ensures (|l.interior| == 2 && l.interior[0].Parachain? && l.interior[0].paraId !in WhitelistedParachains)
            ==> !ParentOrParachains(l)
  {
  }

  /** The network and the id of an account junction never affect acceptance. */
  lemma AccountFieldsIrrelevant(l: Location, i: nat, network: Option<NetworkId>, id: Bytes32)
    requires i < |l.interior| && l.interior[i].AccountId32?
    ensures ParentOrParachains(l.(interior := l.interior[i := AccountId32(network, id)]))
            == ParentOrParachains(l)
  {
  }

  /** The location of a local account: no parents and a single account
      junction with no network; every such location passes the filter. */
  function AccountIdToLocation(account: AccountId): (l: Location)
    ensures ParentOrParachains(l)
    ensures l.parents == 0 && l.interior[0] == AccountId32(None, account)
  {
    Location(0, [AccountId32(None, account)])
  }

  /** Distinct accounts are converted to distinct locations. */
  lemma AccountIdToLocationInjective(a: AccountId, b: AccountId)
    requires AccountIdToLocation(a) == AccountIdToLocation(b)
    ensures a == b
  {
    assert AccountIdToLocation(a).interior[0].id == a;
  }

  type Balance = U128

  /** The existential deposit of every currency is the default balance, 0. */
  function ExistentialDeposits<CurrencyId>(currency: CurrencyId): (b: Balance)
    ensures b == 0
  {
    0
  }
}
