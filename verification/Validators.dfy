/** The validator set of x/validator: deposits, the on-call list of bounded size
    with its cached lowest member, punishment, and the updates sent to consensus. */
module Validators {
  import opened Basics

  type Name = string

  const MAX_INT64 := 0x7fff_ffff_ffff_ffff
  type Amount = x: int | 0 <= x < MAX_INT64

  datatype Params = Params(listSize: nat, minCommit: int, minVoting: int, minWithdraw: int,
                           missVote: nat, missCommit: nat, byzantine: nat, absentLimit: int)

  datatype Validator = Validator(deposit: int, absent: int)

  /** `pre` are the on-call validators before the block, `pool` is the validator
      inflation pool, and `consensus` the validators that consensus knows of. */
  datatype State = State(vals: map<Name, Validator>, oncall: seq<Name>, all: seq<Name>, pre: seq<Name>,
                         lowest: Name, lowestPower: int, pool: int, inBlock: bool, consensus: set<Name>)

  const GENESIS := State(map[], [], [], [], "", 0, 0, false, {})

  function Dep(vals: map<Name, Validator>, n: Name): int {
    if n in vals then vals[n].deposit else 0
  }

  // --------------------------------------------------------------------- lists

  function Remove(me: Name, users: seq<Name>): seq<Name> {
    if users == [] then []
    else
      var rest := Remove(me, users[..|users| - 1]);
      if users[|users| - 1] == me then rest else rest + [users[|users| - 1]]
  }

  function Replace(users: seq<Name>, from: Name, successor: Name): (r: seq<Name>)
    ensures |r| == |users|
    ensures forall i :: 0 <= i < |r| ==> r[i] == if users[i] == from then successor else users[i]
  {
    seq(|users|, i requires 0 <= i < |users| => if users[i] == from then successor else users[i])
  }

  /** updateLowestValidator: name and power of the first of the lowest. */
  function Lowest(vals: map<Name, Validator>, oncall: seq<Name>): (Name, int) {
    if oncall == [] then ("", MAX_INT64)
    else
      var last := oncall[|oncall| - 1];
      var (name, power) := Lowest(vals, oncall[..|oncall| - 1]);
      if power > Dep(vals, last) then (last, Dep(vals, last)) else (name, power)
  }

  /** getBestCandidate: the first of the highest who are not on call. */
  function Best(vals: map<Name, Validator>, all: seq<Name>, oncall: seq<Name>): (Name, int) {
    if all == [] then ("", 0)
    else
      var last := all[|all| - 1];
      var (name, power) := Best(vals, all[..|all| - 1], oncall);
      if last !in oncall && Dep(vals, last) > power then (last, Dep(vals, last)) else (name, power)
  }

  function UpdateLowest(s: State): State {
    var (name, power) := Lowest(s.vals, s.oncall);
    s.(lowest := name, lowestPower := power)
  }

  predicate Qualifies(p: Params, s: State, n: Name) {
    n in s.vals && s.vals[n].deposit >= p.minCommit
  }

  /** What TryBecomeOncallValidator makes of the on-call list. */
  function Join(p: Params, s: State, n: Name): seq<Name> {
    if |s.oncall| < p.listSize then s.oncall + [n]
    else if Dep(s.vals, n) > s.lowestPower then Replace(s.oncall, s.lowest, n)
    else s.oncall
  }

  /** TryBecomeOncallValidator; without the minimum deposit it is an error. */
  function TryBecome(p: Params, s: State, n: Name): State {
    if !Qualifies(p, s, n) then s
    else if n in s.oncall then UpdateLowest(s)
    else UpdateLowest(s.(all := if n in s.all then s.all else s.all + [n], oncall := Join(p, s, n)))
  }

  /** AdjustValidatorList */
  function Adjust(p: Params, s: State): State {
    var s1 := UpdateLowest(s);
    var best := Best(s1.vals, s1.all, s1.oncall).0;
    if best == "" then s1 else TryBecome(p, s1, best)
  }

  /** RemoveValidatorFromAllLists */
  function RemoveFromAll(p: Params, s: State, n: Name): State {
    if n !in s.all then s else Adjust(p, s.(all := Remove(n, s.all), oncall := Remove(n, s.oncall)))
  }

  // ---------------------------------------------------------------- punishment

  datatype Offence = Byzantine | AbsentCommit | DidntVote

  /** PunishOncallValidator: the new state and the actual penalty. A validator who
      is fired loses the whole deposit. */
  function Punish(p: Params, s: State, n: Name, penalty: nat, offence: Offence): (State, int)
    requires n in s.vals
  {
    var v := s.vals[n];
    var taken := Min(penalty, v.deposit);
    var absent := if offence == AbsentCommit then 0 else v.absent;
    if offence == Byzantine || v.deposit - taken < p.minCommit then
      var s1 := RemoveFromAll(p, s, n);
      (Adjust(p, s1.(vals := s1.vals[n := Validator(0, absent)])), v.deposit)
    else
      (Adjust(p, s.(vals := s.vals[n := Validator(v.deposit - taken, absent)])), taken)
  }

  /** One round of FireIncompetentValidator; the absence count is the one read
      before any punishment. */
  function FireOne(p: Params, s: State, n: Name, byzantine: set<Name>): (State, int) {
    if n !in s.vals then (s, 0)
    else
      var absent := s.vals[n].absent;
      var (s1, a1) := if n in byzantine then Punish(p, s, n, p.byzantine, Byzantine) else (s, 0);
      if absent > p.absentLimit && n in s1.vals then
        var (s2, a2) := Punish(p, s1, n, p.missCommit, AbsentCommit);
        (s2, a1 + a2)
      else (s1, a1)
  }

  /** FireIncompetentValidator over the on-call list as it was when read. */
  function Fire(p: Params, s: State, names: seq<Name>, byzantine: set<Name>): (State, int) {
    if names == [] then (s, 0)
    else
      var (s1, a1) := Fire(p, s, names[..|names| - 1], byzantine);
      var (s2, a2) := FireOne(p, s1, names[|names| - 1], byzantine);
      (s2, a1 + a2)
  }

  /** PunishValidatorsDidntVote */
  function PunishAll(p: Params, s: State, names: seq<Name>): (State, int) {
    if names == [] then (s, 0)
    else
      var (s1, a1) := PunishAll(p, s, names[..|names| - 1]);
      if names[|names| - 1] !in s1.vals then (s1, a1)
      else
        var (s2, a2) := Punish(p, s1, names[|names| - 1], p.missVote, DidntVote);
        (s2, a1 + a2)
  }

  /** UpdateSigningValidator for one validator. */
  function Signed(v: Validator, signed: bool): Validator {
    if !signed then v.(absent := v.absent + 1)
    else if v.absent > 0 then v.(absent := v.absent - 1)
    else v
  }

  function UpdateSigning(vals: map<Name, Validator>, oncall: seq<Name>, signers: set<Name>): map<Name, Validator> {
    if oncall == [] then vals
    else
      var rest := UpdateSigning(vals, oncall[..|oncall| - 1], signers);
      var n := oncall[|oncall| - 1];
      if n in rest then rest[n := Signed(rest[n], n in signers)] else rest
  }

  // ------------------------------------------------------------------ handlers

  datatype Op =
    | Begin(signers: set<Name>, byzantine: set<Name>)
    | Deposit(name: Name, coin: int, linoStake: Amount)
    | Withdraw(name: Name, coin: int)
    | Revoke(name: Name)
    | MissedVote(names: seq<Name>)
    | End

  function DepositCoin(s: State, n: Name, coin: int): State {
    s.(vals := s.vals[n := if n in s.vals then s.vals[n].(deposit := s.vals[n].deposit + coin) else Validator(coin, 0)])
  }

  /** Messages come between the begin and the end of a block. Deposits are coins
      of a named account and covered by its stake. */
  predicate Accepted(p: Params, s: State, op: Op) {
    match op
    case Begin(_, _) => !s.inBlock
    case Deposit(n, coin, linoStake) =>
      && s.inBlock && n != "" && 0 < coin
      && (n !in s.vals ==> linoStake >= p.minVoting && coin >= p.minCommit)
      && linoStake >= DepositCoin(s, n, coin).vals[n].deposit
      && Qualifies(p, DepositCoin(s, n, coin), n)
    case Withdraw(n, coin) =>
      && s.inBlock && n in s.vals && coin >= p.minWithdraw && n !in s.oncall
      && s.vals[n].deposit - coin >= p.minCommit && 0 < coin
    case Revoke(n) => s.inBlock && n in s.vals && s.vals[n].deposit != 0
    case MissedVote(names) => s.inBlock && forall n :: n in names ==> n in s.vals
    case End => s.inBlock && (forall n :: n in s.pre ==> n in s.vals) && (forall n :: n in s.oncall ==> n in s.vals)
  }

  function BeginBlock(p: Params, s: State, signers: set<Name>, byzantine: set<Name>): State {
    var s1 := s.(pre := s.oncall, vals := UpdateSigning(s.vals, s.oncall, signers), inBlock := true);
    var (s2, penalty) := Fire(p, s1, s1.oncall, byzantine);
    s2.(pool := s2.pool + penalty)
  }

  // ------------------------------------------------------------------- updates

  /** A validator and whether it keeps its power. */
  type Update = (Name, bool)

  function Leaving(pre: seq<Name>, oncall: seq<Name>): seq<Update> {
    if pre == [] then []
    else
      var n := pre[|pre| - 1];
      Leaving(pre[..|pre| - 1], oncall) + if n in oncall then [] else [(n, false)]
  }

  function Staying(oncall: seq<Name>): (r: seq<Update>)
    ensures |r| == |oncall| && forall i :: 0 <= i < |r| ==> r[i] == (oncall[i], true)
  {
    seq(|oncall|, i requires 0 <= i < |oncall| => (oncall[i], true))
  }

  /** GetUpdateValidatorList */
  function Updates(s: State): seq<Update> {
    Leaving(s.pre, s.oncall) + Staying(s.oncall)
  }

  /** Former validators without deposit are deleted. */
  function Cleared(vals: map<Name, Validator>, pre: seq<Name>, oncall: seq<Name>): map<Name, Validator> {
    if pre == [] then vals
    else
      var rest := Cleared(vals, pre[..|pre| - 1], oncall);
      var n := pre[|pre| - 1];
      if n !in oncall && n in rest && rest[n].deposit == 0 then rest - {n} else rest
  }

  /** How consensus applies updates: power 0 removes a validator. */
  function Apply(known: set<Name>, updates: seq<Update>): set<Name> {
    if updates == [] then known
    else
      var before := Apply(known, updates[..|updates| - 1]);
      var (n, stays) := updates[|updates| - 1];
      if stays then before + {n} else before - {n}
  }

  function EndBlock(s: State): State {
    s.(vals := Cleared(s.vals, s.pre, s.oncall), consensus := Apply(s.consensus, Updates(s)), inBlock := false)
  }

  function Step(p: Params, s: State, op: Op): State {
    if !Accepted(p, s, op) then s
    else match op
      case Begin(signers, byzantine) => BeginBlock(p, s, signers, byzantine)
      case Deposit(n, coin, _) => TryBecome(p, DepositCoin(s, n, coin), n)
      case Withdraw(n, coin) => s.(vals := s.vals[n := s.vals[n].(deposit := s.vals[n].deposit - coin)])
      case Revoke(n) => RemoveFromAll(p, s.(vals := s.vals[n := s.vals[n].(deposit := 0)]), n)
      case MissedVote(names) =>
        var (s1, penalty) := PunishAll(p, s, names);
        s1.(pool := s1.pool + penalty)
      case End => EndBlock(s)
  }

  function Run(p: Params, s: State, ops: seq<Op>): State {
    if ops == [] then s else Step(p, Run(p, s, ops[..|ops| - 1]), ops[|ops| - 1])
  }
}
