/** What the hub stores, what it reads from the chain, and the messages it emits. */
module HubTypes {
  import opened Fixed
  import opened Sums

  /** Parameters and configuration: read by every step, written only by the admin. */
  datatype Settings = Settings(
    epochPeriod: nat,
    unbondingPeriod: nat,
    pegRecoveryFee: nat,
    erThreshold: nat,
    protocolFee: nat,
    coinDenom: string,
    validators: set<string>,
    rewardsContract: string,
    feeCollector: Option<string>)

  datatype UnbondHistory = UnbondHistory(
    batchId: nat,
    time: nat,
    amount: nat,
    appliedRate: nat,
    withdrawRate: nat,
    released: bool)

  type History = map<nat, UnbondHistory>

  /** The storage the state-changing steps write: the state record, the current batch, the
      unbond history and the wait lists. */
  datatype Storage = Storage(
    exchangeRate: nat,
    totalBond: nat,
    prevHubBalance: nat,
    actualUnbonded: nat,
    lastUnbondedTime: nat,
    lastProcessed: nat,
    batchId: nat,
    requested: nat,
    history: History,
    waits: Amounts)

  /** A coin attached to a call. */
  datatype Coin = Coin(denom: string, amount: nat)

  /** The first attached amount of a denomination; zero if there is none. */
  function FirstPaid(funds: seq<Coin>, denom: string): nat {
    if funds == [] then 0
    else if funds[0].denom == denom && funds[0].amount > 0 then funds[0].amount
    else FirstPaid(funds[1..], denom)
  }

  /** It is the first coin of that denomination that is not empty, and nothing only if there
      is none. */
  lemma {:induction false} FirstPaidIs(funds: seq<Coin>, denom: string)
    ensures FirstPaid(funds, denom) == 0 <==>
              forall k | 0 <= k < |funds| :: funds[k].denom == denom ==> funds[k].amount == 0
    ensures FirstPaid(funds, denom) > 0 ==>
              exists k :: 0 <= k < |funds| && funds[k] == Coin(denom, FirstPaid(funds, denom))
                && forall j | 0 <= j < k :: funds[j].denom == denom ==> funds[j].amount == 0
  {
    if funds != [] && !(funds[0].denom == denom && funds[0].amount > 0) {
      FirstPaidIs(funds[1..], denom);
      var rest := funds[1..];
      assert forall k | 0 < k < |funds| :: funds[k] == rest[k - 1];
      assert forall k | 0 <= k < |rest| :: rest[k] == funds[k + 1];
      if FirstPaid(rest, denom) > 0 {
        var k :| 0 <= k < |rest| && rest[k] == Coin(denom, FirstPaid(rest, denom))
          && forall j | 0 <= j < k :: rest[j].denom == denom ==> rest[j].amount == 0;
        assert funds[k + 1] == Coin(denom, FirstPaid(funds, denom));
      }
    } else if funds != [] {
      assert funds[0] == Coin(denom, FirstPaid(funds, denom));
    }
  }

  lemma OneCoin(denom: string, amount: nat)
    ensures FirstPaid([Coin(denom, amount)], denom) == amount
  {
    assert [Coin(denom, amount)][1..] == [];
  }

  datatype Delegation = Delegation(validator: string, amount: nat)

  datatype Msg =
    | Delegate(validator: string, amount: nat)
    | Undelegate(validator: string, amount: nat)
    | Mint(to: string, amount: nat)
    | Burn(amount: nat)
    | Send(to: string, amount: nat)

  /** The part of the chain the hub depends on: token supply, the hub's delegations, its
      liquid balance of the staking coin, and the block time. */
  datatype Chain = Chain(supply: nat, delegations: seq<Delegation>, balance: nat, now: nat)

  function TotalDelegated(ds: seq<Delegation>): nat {
    if ds == [] then 0 else ds[0].amount + TotalDelegated(ds[1..])
  }

  /** The chain keeps one delegation per validator. */
  ghost predicate DistinctValidators(ds: seq<Delegation>) {
    forall i, j | 0 <= i < j < |ds| :: ds[i].validator != ds[j].validator
  }

  function Delegated(ds: seq<Delegation>, validator: string, amount: nat): seq<Delegation> {
    if ds == [] then [Delegation(validator, amount)]
    else if ds[0].validator == validator then
      [Delegation(validator, ds[0].amount + amount)] + ds[1..]
    else [ds[0]] + Delegated(ds[1..], validator, amount)
  }

  /** A fully undelegated entry disappears; asking for more than is delegated is refused. */
  function Undelegated(ds: seq<Delegation>, validator: string, amount: nat): Result<seq<Delegation>> {
    if ds == [] then Err(ChainRejected)
    else if ds[0].validator == validator then
      if ds[0].amount < amount then Err(ChainRejected)
      else if ds[0].amount == amount then Ok(ds[1..])
      else Ok([Delegation(validator, ds[0].amount - amount)] + ds[1..])
    else
      var rest :- Undelegated(ds[1..], validator, amount);
      Ok([ds[0]] + rest)
  }

  function Apply(c: Chain, msg: Msg): Result<Chain> {
    match msg
    case Delegate(validator, amount) =>
      if c.balance < amount then Err(ChainRejected)
      else Ok(c.(balance := c.balance - amount,
                 delegations := Delegated(c.delegations, validator, amount)))
    case Undelegate(validator, amount) =>
      var ds :- Undelegated(c.delegations, validator, amount);
      Ok(c.(delegations := ds))
    case Mint(_, amount) => Ok(c.(supply := c.supply + amount))
    case Burn(amount) =>
      if c.supply < amount then Err(ChainRejected) else Ok(c.(supply := c.supply - amount))
    case Send(_, amount) =>
      if c.balance < amount then Err(ChainRejected) else Ok(c.(balance := c.balance - amount))
  }

  function ApplyAll(c: Chain, msgs: seq<Msg>): Result<Chain>
    decreases |msgs|
  {
    if msgs == [] then Ok(c)
    else
      var next :- Apply(c, msgs[0]);
      ApplyAll(next, msgs[1..])
  }

  /** Messages apply one after the other. */
  lemma {:induction false} ApplyConcat(c: Chain, a: seq<Msg>, b: seq<Msg>)
    ensures ApplyAll(c, a + b) == (match ApplyAll(c, a)
                                   case Ok(mid) => ApplyAll(mid, b)
                                   case Err(e) => Err(e))
    decreases |a|
  {
    if a == [] {
      assert a + b == b;
    } else {
      assert (a + b)[0] == a[0] && (a + b)[1..] == a[1..] + b;
      match Apply(c, a[0])
      case Ok(next) => ApplyConcat(next, a[1..], b);
      case Err(_) =>
    }
  }

  lemma {:induction false} DelegatedTotal(ds: seq<Delegation>, validator: string, amount: nat)
    ensures TotalDelegated(Delegated(ds, validator, amount)) == TotalDelegated(ds) + amount
  {
    if ds != [] && ds[0].validator != validator {
      DelegatedTotal(ds[1..], validator, amount);
      var r := Delegated(ds, validator, amount);
      assert r[1..] == Delegated(ds[1..], validator, amount);
    } else if ds != [] {
      var r := Delegated(ds, validator, amount);
      assert r[1..] == ds[1..];
    }
  }

  ghost predicate HasValidator(ds: seq<Delegation>, validator: string) {
    exists i :: 0 <= i < |ds| && ds[i].validator == validator
  }

  lemma {:induction false} DelegatedDistinct(ds: seq<Delegation>, validator: string, amount: nat)
    requires DistinctValidators(ds)
    ensures DistinctValidators(Delegated(ds, validator, amount))
    ensures forall v :: HasValidator(Delegated(ds, validator, amount), v) ==>
              v == validator || HasValidator(ds, v)
  {
    if ds != [] && ds[0].validator != validator {
      var rest := Delegated(ds[1..], validator, amount);
      DelegatedDistinct(ds[1..], validator, amount);
      var r := [ds[0]] + rest;
      assert r == Delegated(ds, validator, amount);
      forall j | 1 <= j < |r| ensures r[j].validator != ds[0].validator {
        assert r[j] == rest[j - 1];
        assert HasValidator(rest, r[j].validator);
        if r[j].validator != validator {
          var k :| 0 <= k < |ds[1..]| && ds[1..][k].validator == r[j].validator;
          assert ds[k + 1].validator == r[j].validator;
        }
      }
      forall v | HasValidator(r, v) ensures v == validator || HasValidator(ds, v) {
        var i :| 0 <= i < |r| && r[i].validator == v;
        if i == 0 {
          assert ds[0].validator == v;
        } else {
          assert HasValidator(rest, v);
          if v != validator {
            var k :| 0 <= k < |ds[1..]| && ds[1..][k].validator == v;
            assert ds[k + 1].validator == v;
          }
        }
      }
    }
  }
}
