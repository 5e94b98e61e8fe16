// The version ledger and the decisions taken on one snapshot of it
// (scripts/release_state.py).
module Ledger {
  import opened Wrappers

  datatype Channel = Nightly | Beta | Rc | Stable

  datatype Sequence = NoSequence | Numbered(n: nat) | Stamped(stamp: string)

  // A tag is determined by base, channel and sequence, and determines them.
  datatype Tag = Tag(base: string, channel: Channel, sequence: Sequence)

  datatype Plan = Plan(tag: Tag, source: string, policy: string, promoteBytes: bool, number: nat)

  datatype Record = Record(plan: Plan, parent: Option<string>)

  datatype State = State(counter: nat, floor: nat, plans: map<nat, Record>)

  datatype Policy = Policy(digest: string, promoteBytes: bool, floor: nat)

  const EMPTY := State(0, 0, map[])
  const MAX_BUILD: nat := 2100000000
  const MAX_LEDGER: nat := 4000000

  // The length of the encoded ledger, in bytes: every record takes at least one.
  ghost predicate Lawful(size: State -> nat) { forall s: State :: |s.plans| <= size(s) }

  // version_plan.validate_plan on the plan alone.
  predicate ValidPlan(p: Plan) {
    && 0 < p.number <= MAX_BUILD
    && match p.tag.channel
       case Stable => p.tag.sequence.NoSequence?
       case Nightly => p.tag.sequence.Stamped?
       case _ => p.tag.sequence.Numbered? && p.tag.sequence.n > 0
  }

  predicate PlanFits(p: Plan, policy: Policy, source: string) {
    ValidPlan(p) && p.policy == policy.digest && p.promoteBytes == policy.promoteBytes && p.number > policy.floor && p.source == source
  }

  // The shape that read_state accepts; its other condition is the encoded size.
  predicate Readable(s: State) {
    s.floor <= s.counter && forall r :: r in s.plans ==> r > 0 && ValidPlan(s.plans[r].plan) && s.plans[r].plan.number <= s.counter
  }

  predicate Sequenced(channel: Channel) { channel.Beta? || channel.Rc? }

  predicate SameLine(p: Plan, base: string, channel: Channel) { p.tag.base == base && p.tag.channel == channel }

  // ---- reserving ----

  datatype Request = Request(policy: Policy, base: string, channel: Channel, source: string, run: nat, stamp: string, parent: Option<string>)

  datatype Decision = Refused | Existing(plan: Plan) | Allocate(plan: Plan, next: State)

  // The highest sequence reserved for a base and channel; 0 when there is none.
  ghost predicate IsHighest(plans: map<nat, Record>, base: string, channel: Channel, m: nat) {
    && (forall r :: r in plans && SameLine(plans[r].plan, base, channel) && plans[r].plan.tag.sequence.Numbered? ==> plans[r].plan.tag.sequence.n <= m)
    && (m > 0 ==> exists r :: r in plans && SameLine(plans[r].plan, base, channel) && plans[r].plan.tag.sequence == Numbered(m))
  }

  function Max(a: nat, b: nat): nat { if a < b then b else a }

  function NextSequence(q: Request, published: nat, highest: nat): Sequence {
    match q.channel
    case Stable => NoSequence
    case Nightly => Stamped(q.stamp)
    case _ => Numbered(Max(published, highest + 1))
  }

  // reserve_plan on a snapshot: `published` is the next sequence by the published
  // tags, `highest` the highest one in the ledger.
  function Decide(s: State, q: Request, published: nat, highest: nat): Decision {
    if q.run in s.plans then
      var record := s.plans[q.run];
      if PlanFits(record.plan, q.policy, q.source) && SameLine(record.plan, q.base, q.channel) && record.parent == q.parent then Existing(record.plan)
      else Refused
    else
      var number := Max(s.counter, q.policy.floor) + 1;
      var plan := Plan(Tag(q.base, q.channel, NextSequence(q, published, highest)), q.source, q.policy.digest, q.policy.promoteBytes, number);
      if !ValidPlan(plan) then Refused
      else Allocate(plan, s.(counter := number, plans := s.plans[q.run := Record(plan, q.parent)]))
  }

  // ---- publishing ----

  // No plan whose tag is published carries this number or a newer one.
  predicate NoneNewer(s: State, plan: Plan, published: set<Tag>) {
    forall r :: r in s.plans && s.plans[r].plan.tag in published ==> s.plans[r].plan.number < plan.number
  }

  predicate MayPublish(s: State, plan: Plan, run: nat, parent: Option<string>, published: set<Tag>) {
    && ValidPlan(plan) && run in s.plans && s.plans[run] == Record(plan, parent)
    && plan.number > s.floor && NoneNewer(s, plan, published)
  }

  predicate MayPromote(s: State, plan: Plan, published: set<Tag>) {
    && ValidPlan(plan) && plan.tag.channel.Rc? && plan.promoteBytes
    && (exists r :: r in s.plans && s.plans[r].plan == plan && forall q :: q in s.plans && s.plans[q].plan == plan ==> q == r)
    && plan.number >= s.floor && plan.tag in published
    && forall r :: r in s.plans && s.plans[r].plan.tag != plan.tag && s.plans[r].plan.tag in published ==> s.plans[r].plan.number <= plan.number
  }

  // ---- what every written ledger satisfies ----

  predicate Good(s: State) {
    && Readable(s)
    && (forall q, r :: q in s.plans && r in s.plans && q != r ==> s.plans[q].plan.number != s.plans[r].plan.number)
    && (forall q, r :: q in s.plans && r in s.plans && q != r && Sequenced(s.plans[q].plan.tag.channel) ==> s.plans[q].plan.tag != s.plans[r].plan.tag)
  }

  // A later ledger: nothing is forgotten, changed or lowered.
  predicate Extends(s: State, next: State) {
    && s.counter <= next.counter && s.floor <= next.floor
    && forall r :: r in s.plans ==> r in next.plans && next.plans[r] == s.plans[r]
  }

  lemma AllocateGood(s: State, q: Request, published: nat, highest: nat)
    requires Good(s) && q.run > 0 && IsHighest(s.plans, q.base, q.channel, highest) && Decide(s, q, published, highest).Allocate?
    ensures var d := Decide(s, q, published, highest);
      Good(d.next) && Extends(s, d.next) && d.plan.number > s.counter && d.plan.number > q.policy.floor && d.next.floor == s.floor
  {
    var d := Decide(s, q, published, highest);
    forall r | r in s.plans && Sequenced(d.plan.tag.channel) ensures s.plans[r].plan.tag != d.plan.tag {
      if s.plans[r].plan.tag == d.plan.tag {
        assert SameLine(s.plans[r].plan, q.base, q.channel);
      }
    }
  }

  lemma PublishGood(s: State, plan: Plan, run: nat, parent: Option<string>, published: set<Tag>, promotion: bool)
    requires Good(s) && if promotion then MayPromote(s, plan, published) else MayPublish(s, plan, run, parent, published)
    ensures Good(s.(floor := plan.number)) && Extends(s, s.(floor := plan.number))
    ensures plan.number >= s.floor && (!promotion ==> plan.number > s.floor)
  {
  }

  // The ledger a file stands for.
  function Contents(file: Option<State>): State {
    match file
    case Some(s) => s
    case None => EMPTY
  }

  // ---- one call without interference, as the source runs it ----

  class GitHub {
    var file: Option<State>
    var branch: bool
    var published: set<Tag>
    const size: State -> nat

    constructor (size: State -> nat)
      ensures file == None && !branch && published == {} && this.size == size
    {
      file, branch, published, this.size := None, false, {}, size;
    }

    // read_state: no ledger is acceptable only when its branch does not exist.
    method ReadState() returns (r: Result<(State, Option<State>), string>)
      ensures r == match file
                   case None => if branch then Err("missing") else Ok((EMPTY, None))
                   case Some(s) => if Readable(s) && size(s) <= MAX_LEDGER then Ok((s, Some(s))) else Err("invalid")
    {
      if file.None? {
        return if branch then Err("missing") else Ok((EMPTY, None));
      }
      return if Readable(file.value) && size(file.value) <= MAX_LEDGER then Ok((file.value, file)) else Err("invalid");
    }

    // The blob identity is that of its content: a stale write is rejected.
    method WriteState(next: State, previous: Option<State>) returns (accepted: bool)
      modifies this`file
      ensures accepted == (branch && Matches(old(file), previous))
      ensures file == if accepted then Some(next) else old(file)
    {
      accepted := branch && Matches(file, previous);
      if accepted {
        file := Some(next);
      }
    }

    static predicate Matches(current: Option<State>, previous: Option<State>) { current == previous }

    // The highest sequence already reserved, by one pass over the records.
    static method Highest(plans: map<nat, Record>, base: string, channel: Channel) returns (m: nat)
      requires Sequenced(channel) ==> forall r :: r in plans ==> ValidPlan(plans[r].plan)
      ensures IsHighest(plans, base, channel, m)
    {
      m := 0;
      var keys := plans.Keys;
      while keys != {}
        invariant keys <= plans.Keys
        invariant forall r :: r in plans && r !in keys && SameLine(plans[r].plan, base, channel) && plans[r].plan.tag.sequence.Numbered? ==>
                    plans[r].plan.tag.sequence.n <= m
        invariant m > 0 ==> exists r :: r in plans && SameLine(plans[r].plan, base, channel) && plans[r].plan.tag.sequence == Numbered(m)
        decreases |keys|
      {
        var r :| r in keys;
        var plan := plans[r].plan;
        if SameLine(plan, base, channel) && plan.tag.sequence.Numbered? && plan.tag.sequence.n > m {
          m := plan.tag.sequence.n;
        }
        keys := keys - {r};
      }
    }

    // The file can be read: a valid ledger of at most 4,000,000 bytes, or none and no
    // branch for one.
    static predicate Usable(size: State -> nat, file: Option<State>, branch: bool) {
      if file.Some? then Readable(file.value) && size(file.value) <= MAX_LEDGER else !branch
    }

    static ghost predicate Reserved(q: Request, published: nat, highest: nat, before: Option<State>, after: Option<State>, r: Result<Plan, string>) {
      && IsHighest(Contents(before).plans, q.base, q.channel, highest)
      && match Decide(Contents(before), q, published, highest)
         case Refused => r.Err? && after == before
         case Existing(plan) => r == Ok(plan) && after == before
         case Allocate(plan, next) => r == Ok(plan) && after == Some(next)
    }

    // reserve_plan, with nobody else writing in between.
    method ReservePlan(q: Request, published: nat) returns (r: Result<Plan, string>)
      requires q.run > 0 && (file.Some? ==> branch)
      modifies this`file, this`branch
      ensures !Usable(size, old(file), old(branch)) ==> r.Err? && file == old(file)
      ensures Usable(size, old(file), old(branch)) ==> exists highest :: Reserved(q, published, highest, old(file), file, r)
      ensures r.Ok? && file != old(file) ==> branch
    {
      var snapshot := ReadState();
      if snapshot.Err? {
        return Err(snapshot.error);
      }
      var (state, previous) := snapshot.value;
      var highest := Highest(state.plans, q.base, q.channel);
      var d := Decide(state, q, published, highest);
      assert Contents(file) == state;
      assert d.Refused? ==> Reserved(q, published, highest, file, file, Err("refused"));
      assert d.Existing? ==> Reserved(q, published, highest, file, file, Ok(d.plan));
      if d.Refused? {
        return Err("refused");
      }
      if d.Existing? {
        return Ok(d.plan);
      }
      if !branch {
        branch := true;
      }
      var accepted := WriteState(d.next, previous);
      assert Reserved(q, published, highest, previous, file, Ok(d.plan));
      return if accepted then Ok(d.plan) else Err("conflict");
    }

    // begin_publication, with nobody else writing in between.
    method BeginPublication(plan: Plan, run: nat, parent: Option<string>, promotion: bool) returns (r: Result<State, string>)
      requires run > 0 && (file.Some? ==> branch)
      modifies this`file
      ensures r.Ok? <==> (Usable(size, old(file), old(branch))
                          && if promotion then MayPromote(Contents(old(file)), plan, published) else MayPublish(Contents(old(file)), plan, run, parent, published))
      ensures r.Ok? ==> file == Some(Contents(old(file)).(floor := plan.number)) == Some(r.value)
      ensures r.Err? ==> file == old(file)
    {
      var snapshot := ReadState();
      if snapshot.Err? {
        return Err(snapshot.error);
      }
      var (state, previous) := snapshot.value;
      var allowed := if promotion then MayPromote(state, plan, published) else MayPublish(state, plan, run, parent, published);
      if !allowed {
        return Err("refused");
      }
      var next := state.(floor := plan.number);
      var accepted := WriteState(next, previous);
      return if accepted then Ok(next) else Err("conflict");
    }
  }
}
