/** The daily usage rollup, and the budget gate that reads it before every chat call. */
module UsageLedger {
  import opened Base

  type OrgId = nat
  type Date = int

  datatype Key = Key(org: OrgId, provider: string, feature: string, date: Date)

  /** `cost` is in the ledger's smallest currency unit. */
  datatype Totals = Totals(requests: nat, inputTokens: nat, outputTokens: nat, cost: nat)

  /** One usage record, or one rollup row: amounts attributed to a key. */
  datatype Usage = Usage(key: Key, totals: Totals)

  const ZERO := Totals(0, 0, 0, 0)

  function Plus(a: Totals, b: Totals): Totals
  {
    Totals(a.requests + b.requests, a.inputTokens + b.inputTokens, a.outputTokens + b.outputTokens, a.cost + b.cost)
  }

  lemma PlusZero(t: Totals)
    ensures Plus(t, ZERO) == t
  {
  }

  /** SQL's LIKE: `%` matches any text, `_` any character, and a backslash takes the next character as it is. */
  predicate Like(pattern: string, text: string)
    decreases |pattern| + |text|
  {
    if pattern == "" then text == ""
    else if pattern[0] == '%' then Like(pattern[1..], text) || (text != "" && Like(pattern, text[1..]))
    else if pattern[0] == '_' then text != "" && Like(pattern[1..], text[1..])
    else if pattern[0] == '\\' && |pattern| > 1 then
      text != "" && text[0] == pattern[1] && Like(pattern[2..], text[1..])
    else text != "" && text[0] == pattern[0] && Like(pattern[1..], text[1..])
  }

  lemma {:induction false} AnythingIsLike(text: string)
    ensures Like("%", text)
    decreases text
  {
    if text != "" { AnythingIsLike(text[1..]); }
  }

  /** Without wildcards in it, a prefix followed by `%` selects just the texts it begins. */
  lemma {:induction false} PlainPrefixIsPrefix(prefix: string, text: string)
    requires forall c :: c in prefix ==> c != '%' && c != '_' && c != '\\'
    ensures Like(prefix + "%", text) <==> prefix <= text
    decreases prefix
  {
    if prefix == "" {
      assert prefix + "%" == "%";
      AnythingIsLike(text);
    } else {
      assert (prefix + "%")[1..] == prefix[1..] + "%" && prefix[0] in prefix;
      if text != "" {
        assert forall c :: c in prefix[1..] ==> c in prefix;
        PlainPrefixIsPrefix(prefix[1..], text[1..]);
        PrefixByHead(prefix, text);
      }
    }
  }

  lemma PrefixByHead(prefix: string, text: string)
    requires prefix != "" && text != ""
    ensures prefix <= text <==> prefix[0] == text[0] && prefix[1..] <= text[1..]
  {
    if prefix[0] == text[0] && prefix[1..] <= text[1..] {
      assert prefix == [prefix[0]] + prefix[1..] && text == [text[0]] + text[1..];
    }
  }

  /** `%` stands for any run of characters ... */
  lemma {:induction false} AnyRunIsLike(pattern: string, text: string)
    ensures Like("%" + pattern, text) <==> exists k :: 0 <= k <= |text| && Like(pattern, text[k..])
    decreases text
  {
    assert ("%" + pattern)[1..] == pattern && text[0..] == text;
    if text != "" {
      var rest := text[1..];
      AnyRunIsLike(pattern, rest);
      if k :| 0 <= k <= |rest| && Like(pattern, rest[k..]) { assert rest[k..] == text[k + 1..]; }
      if k :| 0 < k <= |text| && Like(pattern, text[k..]) { assert text[k..] == rest[k - 1..]; }
    }
  }

  /** ... `_` for any one ... */
  lemma {:induction false} BlanksAreLike(blanks: string, text: string)
    requires forall c :: c in blanks ==> c == '_'
    ensures Like(blanks, text) <==> |text| == |blanks|
    decreases blanks
  {
    if blanks != "" {
      assert blanks[0] in blanks && forall c :: c in blanks[1..] ==> c in blanks;
      if text != "" { BlanksAreLike(blanks[1..], text[1..]); }
    }
  }

  function Escaped(text: string): string { if text == "" then "" else "\\" + [text[0]] + Escaped(text[1..]) }

  /** ... and an escaped character for itself. */
  lemma {:induction false} EscapedIsItself(plain: string, text: string)
    ensures Like(Escaped(plain), text) <==> text == plain
    decreases plain
  {
    if plain != "" {
      var pattern := Escaped(plain);
      assert pattern[0] == '\\' && pattern[1] == plain[0] && pattern[2..] == Escaped(plain[1..]);
      if text != "" {
        EscapedIsItself(plain[1..], text[1..]);
        assert text == [text[0]] + text[1..] && plain == [plain[0]] + plain[1..];
      }
    }
  }

  /** What a totals query counts; a missing or empty prefix filters nothing. */
  datatype Query = Query(org: OrgId, since: Date, prefix: Option<string>)

  predicate Counts(q: Query, k: Key)
  {
    && k.org == q.org && k.date >= q.since
    && (q.prefix.Some? && q.prefix.value != "" ==> Like(q.prefix.value + "%", k.feature))
  }

  function Share(q: Query, u: Usage): Totals { if Counts(q, u.key) then u.totals else ZERO }

  function Sum(us: seq<Usage>, q: Query): Totals
  {
    if us == [] then ZERO else Plus(Sum(us[..|us| - 1], q), Share(q, us[|us| - 1]))
  }

  predicate UniqueKeys(rows: seq<Usage>)
  {
    forall i, j :: 0 <= i < j < |rows| ==> rows[i].key != rows[j].key
  }

  lemma {:induction false} SumAppend(us: seq<Usage>, u: Usage, q: Query)
    ensures Sum(us + [u], q) == Plus(Sum(us, q), Share(q, u))
  {
    assert (us + [u])[..|us|] == us;
  }

  lemma {:induction false} SumConcat(us: seq<Usage>, vs: seq<Usage>, q: Query)
    ensures Sum(us + vs, q) == Plus(Sum(us, q), Sum(vs, q))
    decreases |vs|
  {
    if vs == [] {
      assert us + vs == us;
    } else {
      var front, last := vs[..|vs| - 1], vs[|vs| - 1];
      calc {
        Sum(us + vs, q);
        { assert us + vs == us + front + [last]; SumAppend(us + front, last, q); }
        Plus(Sum(us + front, q), Share(q, last));
        { SumConcat(us, front, q); }
        Plus(Plus(Sum(us, q), Sum(front, q)), Share(q, last));
        Plus(Sum(us, q), Plus(Sum(front, q), Share(q, last)));
        { assert vs == front + [last]; SumAppend(front, last, q); }
        Plus(Sum(us, q), Sum(vs, q));
      }
    }
  }

  lemma Around<T>(s: seq<T>, i: nat, x: T)
    requires i < |s|
    ensures s == s[..i] + [s[i]] + s[i + 1..]
    ensures s[i := x] == s[..i] + [x] + s[i + 1..]
  {
  }

  lemma {:induction false} SumAround(us: seq<Usage>, u: Usage, vs: seq<Usage>, q: Query)
    ensures Sum(us + [u] + vs, q) == Plus(Sum(us + vs, q), Share(q, u))
  {
    SumConcat(us + [u], vs, q);
    SumAppend(us, u, q);
    SumConcat(us, vs, q);
  }

  /** Adding amounts to one row adds them to every query that counts it. */
  lemma SumUpdate(rows: seq<Usage>, i: nat, u: Usage, q: Query)
    requires i < |rows| && rows[i].key == u.key
    ensures Sum(rows[i := Usage(u.key, Plus(rows[i].totals, u.totals))], q) == Plus(Sum(rows, q), Share(q, u))
  {
    var row := Usage(u.key, Plus(rows[i].totals, u.totals));
    Around(rows, i, row);
    SumAround(rows[..i], rows[i], rows[i + 1..], q);
    SumAround(rows[..i], row, rows[i + 1..], q);
  }

  lemma TakeOut<T>(s: seq<T>, x: T) returns (i: nat)
    requires x in multiset(s)
    ensures i < |s| && s[i] == x && multiset(s[..i] + s[i + 1..]) == multiset(s) - multiset{x}
  {
    i :| 0 <= i < |s| && s[i] == x;
    assert s == s[..i] + [x] + s[i + 1..];
  }

  /** Totals do not depend on the order records arrive in. */
  lemma {:induction false} SumUpToOrder(us: seq<Usage>, vs: seq<Usage>, q: Query)
    requires multiset(us) == multiset(vs)
    ensures Sum(us, q) == Sum(vs, q)
    decreases |us|
  {
    if us == [] {
      assert |multiset(vs)| == 0;
    } else {
      var front, last := us[..|us| - 1], us[|us| - 1];
      assert us == front + [last];
      assert multiset(front) == multiset(us) - multiset{last};
      var i := TakeOut(vs, last);
      SumUpToOrder(front, vs[..i] + vs[i + 1..], q);
      SumAppend(front, last, q);
      Around(vs, i, last);
      SumAround(vs[..i], last, vs[i + 1..], q);
    }
  }

  class ProviderUsageRepository {
    var rows: seq<Usage>
    ghost var log: seq<Usage>

    /** The rollup has one row per key and answers every query as the raw log would. */
    ghost predicate Valid()
      reads this
    {
      UniqueKeys(rows) && forall q: Query :: Sum(rows, q) == Sum(log, q)
    }

    constructor ()
      ensures Valid() && log == []
    {
      rows, log := [], [];
    }

    /** INSERT ... ON CONFLICT DO UPDATE */
    method UpsertDaily(u: Usage)
      requires Valid()
      modifies this
      ensures Valid() && log == old(log) + [u]
      ensures exists i :: 0 <= i < |rows| && rows[i].key == u.key
    {
      var i := 0;
      while i < |rows| && rows[i].key != u.key
        invariant 0 <= i <= |rows| && forall j :: 0 <= j < i ==> rows[j].key != u.key
      {
        i := i + 1;
      }
      ghost var before := rows;
      if i < |rows| {
        rows := rows[i := Usage(u.key, Plus(rows[i].totals, u.totals))];
      } else {
        rows := rows + [u];
      }
      log := log + [u];
      assert rows[i].key == u.key;
      forall q: Query ensures Sum(rows, q) == Sum(log, q) {
        SumAppend(old(log), u, q);
        if i < |before| { SumUpdate(before, i, u, q); } else { SumAppend(before, u, q); }
      }
    }

    method TotalsSince(q: Query) returns (totals: Totals)
      requires Valid()
      ensures totals == Sum(log, q)
    {
      totals := ZERO;
      for i := 0 to |rows|
        invariant totals == Sum(rows[..i], q)
      {
        assert rows[..i + 1] == rows[..i] + [rows[i]];
        SumAppend(rows[..i], rows[i], q);
        if Counts(q, rows[i].key) { totals := Plus(totals, rows[i].totals); }
      }
      assert rows[..|rows|] == rows;
    }
  }

  // ---- The budget gate --------------------------------------------------------------------

  const DAY: int := 86400

  /** Date of `now - 24h` in UTC. */
  function SinceDate(now: Time): Date { (now - DAY) / DAY }

  /** The date a record is booked under, by a server `offset` seconds ahead of UTC. */
  function BookingDate(now: Time, offset: int): Date { (now + offset) / DAY }

  /** The date-granular window counts every record of the last 24 hours exactly if the server does not run
      behind UTC: it books by local date and looks back by UTC date. */
  lemma WindowCoversLastDayExactly(offset: int)
    ensures (forall t: Time, now: Time ::
               now - DAY <= t <= now ==> BookingDate(t, offset) >= SinceDate(now)) <==> offset >= 0
  {
    if offset < 0 {
      assert BookingDate(0, offset) < SinceDate(DAY);
    }
  }

  /** ... and never one booked two days and a local day's shift ago. */
  lemma WindowIsBounded(t: Time, now: Time, offset: int)
    requires BookingDate(t, offset) >= SinceDate(now)
    ensures now - t < 2 * DAY + offset
  {
  }

  datatype Budget = Budget(tokens: int, cost: int)

  datatype Verdict = Allowed | NotConfigured | CheckFailed | Exceeded

  function Tokens(t: Totals): nat { t.inputTokens + t.outputTokens }

  /** Fails closed: with no budget configured, or none readable, nothing is allowed. */
  function EnforceBudget(b: Budget, totals: Option<Totals>): Verdict
  {
    if b.tokens <= 0 && b.cost <= 0 then NotConfigured
    else if totals.None? then CheckFailed
    else if b.tokens > 0 && Tokens(totals.value) >= b.tokens then Exceeded
    else if b.cost > 0 && totals.value.cost >= b.cost then Exceeded
    else Allowed
  }

  /** Which verdict is given: nothing is allowed without a budget, or when usage cannot be read, or when any set
      budget is used up. */
  lemma VerdictExactly(b: Budget, totals: Option<Totals>)
    ensures EnforceBudget(b, totals).NotConfigured? <==> b.tokens <= 0 && b.cost <= 0
    ensures EnforceBudget(b, totals).CheckFailed? <==> (b.tokens > 0 || b.cost > 0) && totals.None?
    ensures EnforceBudget(b, totals).Exceeded? <==>
      && totals.Some?
      && ((b.tokens > 0 && totals.value.inputTokens + totals.value.outputTokens >= b.tokens)
          || (b.cost > 0 && totals.value.cost >= b.cost))
  {
  }

  /** What the provider reports for one answered call. */
  datatype Reply = Reply(provider: string, inputTokens: nat, outputTokens: nat, cost: nat)

  datatype ChatOutcome = Blocked(verdict: Verdict) | ProviderFailed | Answered(reply: Reply)

  class LLMService {
    const usage: ProviderUsageRepository
    const org: Option<OrgId>
    const feature: string
    const budget: Budget

    constructor (usage: ProviderUsageRepository, org: Option<OrgId>, feature: string, budget: Budget)
      ensures this.usage == usage && this.org == org && this.feature == feature && this.budget == budget
    {
      this.usage, this.org, this.feature, this.budget := usage, org, feature, budget;
    }

    /** The gate: None lets the call through. `readable` says whether the usage query succeeds. */
    method Check(now: Time, readable: bool) returns (blocked: Option<Verdict>)
      requires usage.Valid()
      ensures blocked.Some? <==> org.Some? && !Spendable(usage.log, now, readable)
      ensures blocked.Some? ==>
        blocked.value == (if budget.tokens <= 0 && budget.cost <= 0 then NotConfigured
                          else if !readable then CheckFailed else Exceeded)
    {
      if org.None? { return None; }
      var seen: Option<Totals> := None;
      if readable {
        var totals := usage.TotalsSince(Query(org.value, SinceDate(now), None));
        seen := Some(totals);
      }
      var verdict := EnforceBudget(budget, seen);
      VerdictExactly(budget, seen);
      SpendableExactly(usage.log, now, readable);
      blocked := if verdict.Allowed? then None else Some(verdict);
    }

    /** Checks the last day's usage, calls the provider, and books what it used. `reply` says whether the
        provider call (all retries taken) succeeds; `answered` is when. */
    method Chat(now: Time, readable: bool, reply: Option<Reply>, answered: Time, offset: int)
      returns (outcome: ChatOutcome)
      requires usage.Valid()
      modifies usage
      ensures usage.Valid()
      ensures outcome.Blocked? <==> org.Some? && !Spendable(old(usage.log), now, readable)
      ensures outcome.Answered? <==> !outcome.Blocked? && reply.Some?
      ensures outcome.Answered? ==> outcome.reply == reply.value
      ensures !outcome.Answered? ==> usage.log == old(usage.log)
      ensures outcome.Answered? && org.None? ==> usage.log == old(usage.log)
      ensures outcome.Answered? && org.Some? ==>
                usage.log == old(usage.log) + [Booked(reply.value, answered, offset)]
      ensures outcome.Answered? && org.Some? ==> forall q: Query ::
                Sum(usage.log, q) == if Sees(q, answered, offset) then Grown(Sum(old(usage.log), q), reply.value)
                                     else Sum(old(usage.log), q)
      ensures outcome.Answered? && org.Some? && offset >= 0 && UsesUp(reply.value) ==>
                forall readable :: !Spendable(usage.log, answered, readable)
    {
      var blocked := Check(now, readable);
      if blocked.Some? { return Blocked(blocked.value); }
      if reply.None? { return ProviderFailed; }
      outcome := Answered(reply.value);
      Record(reply.value, answered, offset);
    }

    /** Books a reply's usage, if there is an organization to book it for. */
    method Record(reply: Reply, answered: Time, offset: int)
      requires usage.Valid()
      modifies usage
      ensures usage.Valid()
      ensures org.None? ==> usage.log == old(usage.log)
      ensures org.Some? ==> usage.log == old(usage.log) + [Booked(reply, answered, offset)]
      ensures org.Some? ==> forall q: Query ::
                Sum(usage.log, q) == if Sees(q, answered, offset) then Grown(Sum(old(usage.log), q), reply)
                                     else Sum(old(usage.log), q)
      ensures org.Some? && offset >= 0 && UsesUp(reply) ==> forall readable :: !Spendable(usage.log, answered, readable)
    {
      if org.Some? {
        usage.UpsertDaily(Booked(reply, answered, offset));
        forall q: Query ensures Sum(usage.log, q) == if Sees(q, answered, offset) then
          Grown(Sum(old(usage.log), q), reply) else Sum(old(usage.log), q)
        {
          BookedCounts(old(usage.log), q, reply, answered, offset);
        }
        if offset >= 0 && UsesUp(reply) { UsedUpCloses(old(usage.log), reply, answered, offset); }
      }
    }

    /** A query sees what is booked for this service at a time: its organization, not after the cutoff, and its
        feature by the prefix. */
    predicate Sees(q: Query, at: Time, offset: int)
      requires org.Some?
    {
      && q.org == org.value && BookingDate(at, offset) >= q.since
      && (q.prefix == None || q.prefix == Some("") || Like(q.prefix.value + "%", feature))
    }

    /** One request more, and what it used. */
    function Grown(t: Totals, reply: Reply): (t': Totals)
      ensures t'.requests == t.requests + 1 && t'.cost == t.cost + reply.cost
      ensures t'.inputTokens == t.inputTokens + reply.inputTokens
      ensures t'.outputTokens == t.outputTokens + reply.outputTokens
    {
      Totals(t.requests + 1, t.inputTokens + reply.inputTokens, t.outputTokens + reply.outputTokens,
             t.cost + reply.cost)
    }

    /** The reply alone uses up a budget that is set. */
    predicate UsesUp(reply: Reply)
    {
      || (budget.tokens > 0 && reply.inputTokens + reply.outputTokens >= budget.tokens)
      || (budget.cost > 0 && reply.cost >= budget.cost)
    }

    lemma SeenIsCounted(q: Query, reply: Reply, at: Time, offset: int)
      requires org.Some?
      ensures Counts(q, Booked(reply, at, offset).key) <==> Sees(q, at, offset)
    {
    }

    lemma BookedGrows(t: Totals, reply: Reply, at: Time, offset: int)
      requires org.Some?
      ensures Plus(t, Booked(reply, at, offset).totals) == Grown(t, reply)
    {
    }

    /** What is booked is what the reply used: it adds to every query that sees it, and to no other. */
    lemma BookedCounts(log: seq<Usage>, q: Query, reply: Reply, at: Time, offset: int)
      requires org.Some?
      ensures Sum(log + [Booked(reply, at, offset)], q) ==
        if Sees(q, at, offset) then Grown(Sum(log, q), reply) else Sum(log, q)
    {
      var u, before := Booked(reply, at, offset), Sum(log, q);
      SumAppend(log, u, q);
      SeenIsCounted(q, reply, at, offset);
      BookedGrows(before, reply, at, offset);
      PlusZero(before);
      assert Share(q, u) == if Sees(q, at, offset) then u.totals else ZERO;
    }

    /** So a call that uses up a budget closes the gate behind it, unless the server runs behind UTC. */
    lemma UsedUpCloses(log: seq<Usage>, reply: Reply, at: Time, offset: int)
      requires org.Some? && offset >= 0 && UsesUp(reply)
      ensures forall readable :: !Spendable(log + [Booked(reply, at, offset)], at, readable)
    {
      var q := Query(org.value, SinceDate(at), None);
      BookedCounts(log, q, reply, at, offset);
      assert BookingDate(at, offset) >= SinceDate(at);
    }

    function Booked(reply: Reply, at: Time, offset: int): Usage
      requires org.Some?
    {
      Usage(Key(org.value, reply.provider, feature, BookingDate(at, offset)),
            Totals(1, reply.inputTokens, reply.outputTokens, reply.cost))
    }

    /** That is when the budget's verdict on what was read allows it. */
    lemma SpendableExactly(log: seq<Usage>, now: Time, readable: bool)
      requires org.Some?
      ensures Spendable(log, now, readable) <==>
        EnforceBudget(budget, if readable then Some(Sum(log, Query(org.value, SinceDate(now), None))) else None).Allowed?
    {
    }

    /** A call may be made: some budget is set, usage could be read, and every set budget has something left. */
    predicate Spendable(log: seq<Usage>, now: Time, readable: bool)
      requires org.Some?
    {
      var spent := Sum(log, Query(org.value, SinceDate(now), None));
      && (budget.tokens > 0 || budget.cost > 0)
      && readable
      && (budget.tokens > 0 ==> spent.inputTokens + spent.outputTokens < budget.tokens)
      && (budget.cost > 0 ==> spent.cost < budget.cost)
    }
  }

  type CallId = nat

  /** At most `parallel` calls in flight, each using at most the given tokens and cost. */
  datatype Limits = Limits(org: OrgId, budget: Budget, parallel: nat, maxTokens: nat, maxCost: nat, offset: int)

  datatype Gate = Gate(now: Time, log: seq<Usage>, inFlight: set<CallId>)

  datatype Event =
    | Pass(to: Time)
    | Admit(call: CallId)
    | Record(call: CallId, u: Usage)
    | Abandon(call: CallId)
    | Elsewhere(u: Usage)

  function Window(l: Limits, g: Gate): Totals { Sum(g.log, Query(l.org, SinceDate(g.now), None)) }

  predicate Enabled(l: Limits, g: Gate, e: Event)
  {
    match e
    case Pass(to) => g.now <= to
    case Admit(call) =>
      call !in g.inFlight && |g.inFlight| < l.parallel && EnforceBudget(l.budget, Some(Window(l, g))).Allowed?
    case Record(call, u) =>
      call in g.inFlight && u.key.org == l.org && u.key.date == BookingDate(g.now, l.offset)
      && Tokens(u.totals) <= l.maxTokens && u.totals.cost <= l.maxCost
    case Abandon(call) => call in g.inFlight
    case Elsewhere(u) => u.key.org != l.org
  }

  function After(l: Limits, g: Gate, e: Event): Gate
    requires Enabled(l, g, e)
  {
    match e
    case Pass(to) => g.(now := to)
    case Admit(call) => g.(inFlight := g.inFlight + {call})
    case Record(call, u) => g.(inFlight := g.inFlight - {call}, log := g.log + [u])
    case Abandon(call) => g.(inFlight := g.inFlight - {call})
    case Elsewhere(u) => g.(log := g.log + [u])
  }

  ghost predicate Reaches(l: Limits, g: Gate, n: nat)
    decreases n
  {
    if n == 0 then exists now: Time :: g == Gate(now, [], {})
    else exists m: Gate, e: Event :: Reaches(l, m, n - 1) && Enabled(l, m, e) && g == After(l, m, e)
  }

  /** The check lets a call through exactly when the gate may admit it ... */
  lemma CheckAdmitsExactly(service: LLMService, l: Limits, g: Gate, call: CallId)
    requires service.org == Some(l.org) && service.budget == l.budget
    requires call !in g.inFlight && |g.inFlight| < l.parallel
    ensures Enabled(l, g, Admit(call)) <==> service.Spendable(g.log, g.now, true)
  {
    VerdictExactly(l.budget, Some(Window(l, g)));
  }

  /** ... and what is booked for its reply is a record the gate may take: a call of the service is an admission, a
      wait and a record. */
  lemma BookingIsARecord(service: LLMService, l: Limits, g: Gate, call: CallId, reply: Reply)
    requires service.org == Some(l.org) && call in g.inFlight
    requires reply.inputTokens + reply.outputTokens <= l.maxTokens && reply.cost <= l.maxCost
    ensures var e := Record(call, service.Booked(reply, g.now, l.offset));
      Enabled(l, g, e) && After(l, g, e).log == g.log + [service.Booked(reply, g.now, l.offset)]
  {
  }

  /** A later cutoff never counts more. */
  lemma {:induction false} LaterCutoffCountsLess(us: seq<Usage>, q: Query, since: Date)
    requires q.since <= since
    ensures Tokens(Sum(us, q.(since := since))) <= Tokens(Sum(us, q))
    ensures Sum(us, q.(since := since)).cost <= Sum(us, q).cost
    decreases |us|
  {
    if us != [] { LaterCutoffCountsLess(us[..|us| - 1], q, since); }
  }

  /** Room is kept for everything admitted and not yet recorded. */
  predicate Fits(spent: nat, inFlight: nat, budget: int, parallel: nat, most: nat)
  {
    budget > 0 ==> spent + Times(inFlight, most) <= budget - 1 + Times(parallel, most)
  }

  predicate WithinLimits(l: Limits, w: Totals, k: nat)
  {
    && k <= l.parallel
    && Fits(Tokens(w), k, l.budget.tokens, l.parallel, l.maxTokens)
    && Fits(w.cost, k, l.budget.cost, l.parallel, l.maxCost)
  }

  predicate WithinBudget(l: Limits, g: Gate) { WithinLimits(l, Window(l, g), |g.inFlight|) }

  /** A passed check leaves room for one more call ... */
  lemma FitsOneMore(spent: nat, k: nat, budget: int, parallel: nat, most: nat)
    requires k < parallel && (budget > 0 ==> spent < budget)
    ensures Fits(spent, k + 1, budget, parallel, most)
  {
    TimesMonotone(k + 1, parallel, most);
  }

  /** ... a finished call only uses its own room ... */
  lemma FitsOneLess(spent: nat, k: nat, budget: int, parallel: nat, most: nat, used: nat)
    requires used <= most && Fits(spent, k + 1, budget, parallel, most)
    ensures Fits(spent + used, k, budget, parallel, most)
  {
  }

  /** ... and spending less frees nothing that was promised. */
  lemma FitsLess(spent: nat, less: nat, k: nat, budget: int, parallel: nat, most: nat)
    requires less <= spent && Fits(spent, k, budget, parallel, most)
    ensures Fits(less, k, budget, parallel, most)
    ensures budget > 0 ==> less <= budget - 1 + parallel * most
  {
    TimesIsProduct(parallel, most);
  }

  lemma FinishFits(l: Limits, w: Totals, k: nat, used: Totals)
    requires WithinLimits(l, w, k) && k > 0
    requires Tokens(used) <= l.maxTokens && used.cost <= l.maxCost
    ensures WithinLimits(l, Plus(w, used), k - 1)
  {
    FitsOneLess(Tokens(w), k - 1, l.budget.tokens, l.parallel, l.maxTokens, Tokens(used));
    FitsOneLess(w.cost, k - 1, l.budget.cost, l.parallel, l.maxCost, used.cost);
  }

  lemma LessFits(l: Limits, w: Totals, w': Totals, k: nat)
    requires WithinLimits(l, w, k) && Tokens(w') <= Tokens(w) && w'.cost <= w.cost
    ensures WithinLimits(l, w', k)
    ensures l.budget.tokens > 0 ==> Tokens(w') <= l.budget.tokens - 1 + l.parallel * l.maxTokens
    ensures l.budget.cost > 0 ==> w'.cost <= l.budget.cost - 1 + l.parallel * l.maxCost
  {
    FitsLess(Tokens(w), Tokens(w'), k, l.budget.tokens, l.parallel, l.maxTokens);
    FitsLess(w.cost, w'.cost, k, l.budget.cost, l.parallel, l.maxCost);
  }

  lemma AdmitFits(l: Limits, w: Totals, k: nat)
    requires WithinLimits(l, w, k) && k < l.parallel && EnforceBudget(l.budget, Some(w)).Allowed?
    ensures WithinLimits(l, w, k + 1)
  {
    FitsOneMore(Tokens(w), k, l.budget.tokens, l.parallel, l.maxTokens);
    FitsOneMore(w.cost, k, l.budget.cost, l.parallel, l.maxCost);
  }

  lemma PassKeepsBudget(l: Limits, g: Gate, to: Time)
    requires WithinBudget(l, g) && g.now <= to
    ensures WithinBudget(l, g.(now := to))
  {
    LaterCutoffCountsLess(g.log, Query(l.org, SinceDate(g.now), None), SinceDate(to));
    LessFits(l, Window(l, g), Window(l, g.(now := to)), |g.inFlight|);
  }

  lemma OneMoreIn<T>(s: set<T>, x: T)
    requires x !in s
    ensures |s + {x}| == |s| + 1
  {
  }

  lemma AdmitKeepsBudget(l: Limits, g: Gate, call: CallId)
    requires WithinBudget(l, g) && call !in g.inFlight && |g.inFlight| < l.parallel
    requires EnforceBudget(l.budget, Some(Window(l, g))).Allowed?
    ensures WithinBudget(l, g.(inFlight := g.inFlight + {call}))
  {
    var w, g' := Window(l, g), g.(inFlight := g.inFlight + {call});
    OneMoreIn(g.inFlight, call);
    AdmitFits(l, w, |g.inFlight|);
    assert Window(l, g') == w;
  }

  lemma OneFewer<T>(s: set<T>, x: T)
    requires x in s
    ensures 0 < |s| && |s - {x}| == |s| - 1
  {
  }

  lemma ShareIsAtMost(q: Query, u: Usage)
    ensures Tokens(Share(q, u)) <= Tokens(u.totals) && Share(q, u).cost <= u.totals.cost
  {
  }

  lemma RecordKeepsBudget(l: Limits, g: Gate, call: CallId, u: Usage)
    requires WithinBudget(l, g) && call in g.inFlight
    requires Tokens(u.totals) <= l.maxTokens && u.totals.cost <= l.maxCost
    ensures WithinBudget(l, g.(inFlight := g.inFlight - {call}, log := g.log + [u]))
  {
    var q := Query(l.org, SinceDate(g.now), None);
    OneFewer(g.inFlight, call);
    ShareIsAtMost(q, u);
    FinishFits(l, Window(l, g), |g.inFlight|, Share(q, u));
    SumAppend(g.log, u, q);
  }

  lemma AbandonKeepsBudget(l: Limits, g: Gate, call: CallId)
    requires WithinBudget(l, g) && call in g.inFlight
    ensures WithinBudget(l, g.(inFlight := g.inFlight - {call}))
  {
    OneFewer(g.inFlight, call);
    FinishFits(l, Window(l, g), |g.inFlight|, ZERO);
    PlusZero(Window(l, g));
  }

  lemma StepKeepsBudget(l: Limits, g: Gate, e: Event)
    requires WithinBudget(l, g) && Enabled(l, g, e)
    ensures WithinBudget(l, After(l, g, e))
  {
    match e
    case Pass(to) => PassKeepsBudget(l, g, to);
    case Admit(call) => AdmitKeepsBudget(l, g, call);
    case Record(call, u) => RecordKeepsBudget(l, g, call, u);
    case Abandon(call) => AbandonKeepsBudget(l, g, call);
    case Elsewhere(u) => SumAppend(g.log, u, Query(l.org, SinceDate(g.now), None));
  }

  lemma StartFits(l: Limits, now: Time)
    ensures WithinBudget(l, Gate(now, [], {}))
  {
  }

  /** Check and record are separate steps, so calls in flight together can overshoot, but never by more than
      what they can use: in any interleaving, window rollover included. */
  lemma {:induction false} OvershootBounded(l: Limits, g: Gate, n: nat)
    requires Reaches(l, g, n)
    ensures WithinBudget(l, g)
    ensures l.budget.tokens > 0 ==> Tokens(Window(l, g)) <= l.budget.tokens - 1 + l.parallel * l.maxTokens
    ensures l.budget.cost > 0 ==> Window(l, g).cost <= l.budget.cost - 1 + l.parallel * l.maxCost
    decreases n
  {
    if n == 0 {
      StartFits(l, g.now);
    } else {
      var m, e :| Reaches(l, m, n - 1) && Enabled(l, m, e) && g == After(l, m, e);
      OvershootBounded(l, m, n - 1);
      StepKeepsBudget(l, m, e);
    }
    LessFits(l, Window(l, g), Window(l, g), |g.inFlight|);
  }

  // ---- The bound is tight -----------------------------------------------------------------

  ghost predicate Can(l: Limits, g: Gate) { exists n: nat :: Reaches(l, g, n) }

  lemma CanStep(l: Limits, g: Gate, e: Event)
    requires Can(l, g) && Enabled(l, g, e)
    ensures Can(l, After(l, g, e))
  {
    var n: nat :| Reaches(l, g, n);
    assert Reaches(l, After(l, g, e), n + 1);
  }

  /** What the gate counts at some time, and the calls in flight. */
  datatype Tally = Tally(window: Totals, inFlight: set<CallId>)

  ghost predicate TallyOf(l: Limits, now: Time, t: Tally, g: Gate)
  {
    Can(l, g) && g.now == now && t == Tally(Window(l, g), g.inFlight)
  }

  ghost predicate IsTally(l: Limits, now: Time, t: Tally) { exists g :: TallyOf(l, now, t, g) }

  ghost function Tallies(l: Limits, now: Time): iset<Tally> { iset t: Tally | IsTally(l, now, t) }

  predicate MayAdmit(l: Limits, t: Tally, call: CallId)
  {
    EnforceBudget(l.budget, Some(t.window)).Allowed? && call !in t.inFlight && |t.inFlight| < l.parallel
  }

  predicate MayRecord(l: Limits, t: Tally, call: CallId, used: Totals)
  {
    call in t.inFlight && Tokens(used) <= l.maxTokens && used.cost <= l.maxCost
  }

  /** Calls can be let in and recorded one by one. */
  ghost predicate Closed(l: Limits, all: iset<Tally>)
  {
    && Tally(ZERO, {}) in all
    && (forall t, call :: t in all && MayAdmit(l, t, call) ==> Tally(t.window, t.inFlight + {call}) in all)
    && (forall t, call, used :: t in all && MayRecord(l, t, call, used) ==>
          Tally(Plus(t.window, used), t.inFlight - {call}) in all)
  }

  lemma HasTally(l: Limits, now: Time, t: Tally, g: Gate)
    requires TallyOf(l, now, t, g)
    ensures IsTally(l, now, t)
  {
  }

  lemma GateOf(l: Limits, now: Time, t: Tally) returns (g: Gate)
    requires IsTally(l, now, t)
    ensures TallyOf(l, now, t, g)
  {
    g :| TallyOf(l, now, t, g);
  }

  lemma StartTally(l: Limits, now: Time)
    ensures TallyOf(l, now, Tally(ZERO, {}), Gate(now, [], {}))
  {
    assert Reaches(l, Gate(now, [], {}), 0);
  }

  lemma AdmittedTally(l: Limits, now: Time, t: Tally, g: Gate, call: CallId)
    requires TallyOf(l, now, t, g) && MayAdmit(l, t, call)
    ensures TallyOf(l, now, Tally(t.window, t.inFlight + {call}), g.(inFlight := g.inFlight + {call}))
  {
    CanStep(l, g, Admit(call));
    assert Window(l, g.(inFlight := g.inFlight + {call})) == Window(l, g);
  }

  function Use(l: Limits, now: Time, used: Totals): Usage
  {
    Usage(Key(l.org, "provider", "ai.run", BookingDate(now, l.offset)), used)
  }

  lemma WindowAfterRecord(l: Limits, g: Gate, call: CallId, u: Usage)
    requires Counts(Query(l.org, SinceDate(g.now), None), u.key)
    ensures Window(l, g.(inFlight := g.inFlight - {call}, log := g.log + [u])) == Plus(Window(l, g), u.totals)
  {
    SumAppend(g.log, u, Query(l.org, SinceDate(g.now), None));
  }

  /** What is booked at a time is counted then, unless the server is too far behind. */
  lemma RecordedTally(l: Limits, now: Time, t: Tally, g: Gate, call: CallId, used: Totals)
    requires TallyOf(l, now, t, g) && MayRecord(l, t, call, used) && BookingDate(now, l.offset) >= SinceDate(now)
    ensures TallyOf(l, now, Tally(Plus(t.window, used), t.inFlight - {call}),
                    g.(inFlight := g.inFlight - {call}, log := g.log + [Use(l, now, used)]))
  {
    CanStep(l, g, Record(call, Use(l, now, used)));
    WindowAfterRecord(l, g, call, Use(l, now, used));
  }

  lemma AdmittedIsTally(l: Limits, now: Time, t: Tally, call: CallId)
    requires IsTally(l, now, t) && MayAdmit(l, t, call)
    ensures IsTally(l, now, Tally(t.window, t.inFlight + {call}))
  {
    var g := GateOf(l, now, t);
    AdmittedTally(l, now, t, g, call);
    HasTally(l, now, Tally(t.window, t.inFlight + {call}), g.(inFlight := g.inFlight + {call}));
  }

  lemma RecordedIsTally(l: Limits, now: Time, t: Tally, call: CallId, used: Totals)
    requires IsTally(l, now, t) && MayRecord(l, t, call, used) && BookingDate(now, l.offset) >= SinceDate(now)
    ensures IsTally(l, now, Tally(Plus(t.window, used), t.inFlight - {call}))
  {
    var g := GateOf(l, now, t);
    RecordedTally(l, now, t, g, call, used);
    HasTally(l, now, Tally(Plus(t.window, used), t.inFlight - {call}),
             g.(inFlight := g.inFlight - {call}, log := g.log + [Use(l, now, used)]));
  }

  lemma TalliesAreClosed(l: Limits, now: Time)
    requires BookingDate(now, l.offset) >= SinceDate(now)
    ensures Closed(l, Tallies(l, now))
  {
    StartTally(l, now);
    HasTally(l, now, Tally(ZERO, {}), Gate(now, [], {}));
    forall t, call | t in Tallies(l, now) && MayAdmit(l, t, call)
      ensures Tally(t.window, t.inFlight + {call}) in Tallies(l, now)
    {
      AdmittedIsTally(l, now, t, call);
    }
    forall t, call, used | t in Tallies(l, now) && MayRecord(l, t, call, used)
      ensures Tally(Plus(t.window, used), t.inFlight - {call}) in Tallies(l, now)
    {
      RecordedIsTally(l, now, t, call, used);
    }
  }

  /** The two things budgeted. */
  datatype Measure = ByTokens | ByCost

  function Amount(m: Measure, t: Totals): nat { if m.ByTokens? then Tokens(t) else t.cost }

  function BudgetOf(l: Limits, m: Measure): int { if m.ByTokens? then l.budget.tokens else l.budget.cost }

  function MostOf(l: Limits, m: Measure): nat { if m.ByTokens? then l.maxTokens else l.maxCost }

  function Spent(l: Limits, m: Measure, g: Gate): nat { Amount(m, Window(l, g)) }

  /** So many requests that used this much of one measure and nothing of the other. */
  function Only(m: Measure, requests: nat, amount: nat): Totals
  {
    if m.ByTokens? then Totals(requests, amount, 0, 0) else Totals(requests, 0, 0, amount)
  }

  /** One request more. */
  lemma OneMoreUse(
    l: Limits, m: Measure, all: iset<Tally>, n: nat, spent: nat, calls: set<CallId>, call: CallId, used: nat)
    requires Closed(l, all) && Tally(Only(m, n, spent), calls) in all && call in calls && used <= MostOf(l, m)
    ensures Tally(Only(m, n + 1, spent + used), calls - {call}) in all
  {
    var t := Tally(Only(m, n, spent), calls);
    assert MayRecord(l, t, call, Only(m, 1, used));
    assert Plus(t.window, Only(m, 1, used)) == Only(m, n + 1, spent + used);
  }

  lemma OneMoreCall(l: Limits, m: Measure, all: iset<Tally>, n: nat, spent: nat, calls: set<CallId>, call: CallId)
    requires Closed(l, all) && Tally(Only(m, n, spent), calls) in all && spent < BudgetOf(l, m)
    requires call !in calls && |calls| < l.parallel
    ensures Tally(Only(m, n, spent), calls + {call}) in all
  {
    assert MayAdmit(l, Tally(Only(m, n, spent), calls), call);
  }

  lemma OnlyCall(call: CallId)
    ensures {call} - {call} == {} && |{call}| == 1
  {
  }

  /** One call alone, from check to record. */
  lemma OneCallAlone(l: Limits, m: Measure, all: iset<Tally>, n: nat, spent: nat, used: nat)
    requires Closed(l, all) && Tally(Only(m, n, spent), {}) in all && spent < BudgetOf(l, m)
    requires 0 < l.parallel && used <= MostOf(l, m)
    ensures Tally(Only(m, n + 1, spent + used), {}) in all
  {
    OneMoreCall(l, m, all, n, spent, {}, 0);
    assert {} + {0} == {0};
    OneMoreUse(l, m, all, n, spent, {0}, 0, used);
    OnlyCall(0);
  }

  /** Unit by unit, one call at a time, up to just under the budget. */
  lemma {:induction false} FillUp(l: Limits, m: Measure, all: iset<Tally>, goal: nat)
    requires Closed(l, all) && 0 < l.parallel && 0 < MostOf(l, m) && goal < BudgetOf(l, m)
    ensures Tally(Only(m, goal, goal), {}) in all
    decreases goal
  {
    if goal == 0 {
      assert Only(m, 0, 0) == ZERO;
    } else {
      FillUp(l, m, all, goal - 1);
      OneCallAlone(l, m, all, goal - 1, goal - 1, 1);
    }
  }

  /** Then k calls are let in together ... */
  lemma {:induction false} AdmitMany(l: Limits, m: Measure, all: iset<Tally>, n: nat, spent: nat, k: nat)
    returns (calls: set<CallId>)
    requires Closed(l, all) && Tally(Only(m, n, spent), {}) in all && spent < BudgetOf(l, m) && k <= l.parallel
    ensures Tally(Only(m, n, spent), calls) in all && |calls| == k && forall c :: c in calls ==> c < k
    decreases k
  {
    if k == 0 {
      calls := {};
    } else {
      var fewer := AdmitMany(l, m, all, n, spent, k - 1);
      OneMoreCall(l, m, all, n, spent, fewer, k - 1);
      OneMoreIn(fewer, k - 1);
      calls := fewer + {k - 1};
    }
  }

  lemma OneMoreTime(k: nat, n: nat)
    requires k > 0
    ensures Times(k, n) == Times(k - 1, n) + n
  {
  }

  /** ... and each uses all it may: one ... */
  lemma RecordOneOf(l: Limits, m: Measure, all: iset<Tally>, n: nat, spent: nat, calls: set<CallId>)
    returns (rest: set<CallId>)
    requires Closed(l, all) && Tally(Only(m, n, spent), calls) in all && |calls| > 0
    ensures Tally(Only(m, n + 1, spent + MostOf(l, m)), rest) in all && |rest| == |calls| - 1
  {
    var call :| call in calls;
    rest := calls - {call};
    OneMoreUse(l, m, all, n, spent, calls, call, MostOf(l, m));
    OneFewer(calls, call);
  }

  lemma NoCalls(calls: set<CallId>)
    requires |calls| == 0
    ensures calls == {}
  {
  }

  /** ... after the other. */
  lemma {:induction false} RecordMany(
    l: Limits, m: Measure, all: iset<Tally>, n: nat, spent: nat, calls: set<CallId>, requests: nat, total: nat)
    requires Closed(l, all) && Tally(Only(m, n, spent), calls) in all
    requires requests == n + |calls| && total == spent + Times(|calls|, MostOf(l, m))
    ensures Tally(Only(m, requests, total), {}) in all
    decreases |calls|
  {
    if |calls| == 0 {
      NoCalls(calls);
    } else {
      OneMoreTime(|calls|, MostOf(l, m));
      var rest := RecordOneOf(l, m, all, n, spent, calls);
      RecordMany(l, m, all, n + 1, spent + MostOf(l, m), rest, requests, total);
    }
  }

  /** A call can use something that counts: calls are let in, may use some, and are not booked out of the window. */
  predicate CanSpend(l: Limits, m: Measure) { l.parallel > 0 && MostOf(l, m) > 0 && l.offset > -2 * DAY }

  function Bound(l: Limits, m: Measure): int { BudgetOf(l, m) - 1 + Times(l.parallel, MostOf(l, m)) }

  ghost predicate AtBound(l: Limits, m: Measure, g: Gate) { Can(l, g) && Spent(l, m, g) == Bound(l, m) }

  lemma BoundIsTally(l: Limits, m: Measure, all: iset<Tally>) returns (t: Tally)
    requires Closed(l, all) && BudgetOf(l, m) > 0 && CanSpend(l, m)
    ensures t in all && Amount(m, t.window) == Bound(l, m)
  {
    var b := BudgetOf(l, m) - 1;
    FillUp(l, m, all, b);
    var calls := AdmitMany(l, m, all, b, b, l.parallel);
    var most := b + Times(l.parallel, MostOf(l, m));
    RecordMany(l, m, all, b, b, calls, b + l.parallel, most);
    t := Tally(Only(m, b + l.parallel, most), {});
  }

  lemma BoundIsReached(l: Limits, m: Measure) returns (g: Gate)
    requires BudgetOf(l, m) > 0 && CanSpend(l, m)
    ensures AtBound(l, m, g)
  {
    TalliesAreClosed(l, DAY - 1);
    var t := BoundIsTally(l, m, Tallies(l, DAY - 1));
    g := GateOf(l, DAY - 1, t);
  }

  lemma {:induction false} NothingCounted(m: Measure, us: seq<Usage>, q: Query)
    requires forall u :: u in us && Counts(q, u.key) ==> Amount(m, u.totals) == 0
    ensures Amount(m, Sum(us, q)) == 0
    decreases us
  {
    if us != [] {
      var front, last := us[..|us| - 1], us[|us| - 1];
      assert us == front + [last] && last in us && forall u :: u in front ==> u in us;
      NothingCounted(m, front, q);
    }
  }

  /** Without that, no record ever counts. */
  ghost predicate Idle(l: Limits, m: Measure, g: Gate)
  {
    && (l.parallel == 0 ==> g.inFlight == {})
    && (forall u :: u in g.log && u.key.org == l.org ==> Amount(m, u.totals) == 0 || u.key.date < SinceDate(g.now))
  }

  lemma StepKeepsIdle(l: Limits, m: Measure, g: Gate, e: Event)
    requires !CanSpend(l, m) && Idle(l, m, g) && Enabled(l, g, e)
    ensures Idle(l, m, After(l, g, e))
  {
  }

  lemma IdleSpendsNothing(l: Limits, m: Measure, g: Gate)
    requires Idle(l, m, g)
    ensures Spent(l, m, g) == 0
  {
    NothingCounted(m, g.log, Query(l.org, SinceDate(g.now), None));
  }

  lemma {:induction false} IdleAlongRuns(l: Limits, m: Measure, g: Gate, n: nat)
    requires !CanSpend(l, m) && Reaches(l, g, n)
    ensures Idle(l, m, g)
    decreases n
  {
    if n > 0 {
      var before, e :| Reaches(l, before, n - 1) && Enabled(l, before, e) && g == After(l, before, e);
      IdleAlongRuns(l, m, before, n - 1);
      StepKeepsIdle(l, m, before, e);
    }
  }

  lemma NeverSpends(l: Limits, m: Measure, g: Gate)
    requires !CanSpend(l, m) && Can(l, g)
    ensures Spent(l, m, g) == 0
  {
    var n: nat :| Reaches(l, g, n);
    IdleAlongRuns(l, m, g, n);
    IdleSpendsNothing(l, m, g);
  }

  lemma {:induction false} TimesIsZero(k: nat, n: nat)
    ensures Times(k, n) == 0 <==> k == 0 || n == 0
    decreases k
  {
    if k > 0 { TimesIsZero(k - 1, n); }
  }

  lemma BoundIsZero(l: Limits, m: Measure, g: Gate)
    requires BudgetOf(l, m) > 0 && !CanSpend(l, m) && AtBound(l, m, g)
    ensures BudgetOf(l, m) == 1 && (l.parallel == 0 || MostOf(l, m) == 0)
  {
    NeverSpends(l, m, g);
    TimesIsZero(l.parallel, MostOf(l, m));
  }

  lemma ZeroIsReached(l: Limits, m: Measure)
    requires BudgetOf(l, m) == 1 && (l.parallel == 0 || MostOf(l, m) == 0)
    ensures AtBound(l, m, Gate(0, [], {}))
  {
    TimesIsZero(l.parallel, MostOf(l, m));
    assert Reaches(l, Gate(0, [], {}), 0);
  }

  ghost predicate Tight(l: Limits, m: Measure) { exists g :: AtBound(l, m, g) }

  /** Calls can spend at all, or the bound is zero. */
  predicate TightWhen(l: Limits, m: Measure)
  {
    CanSpend(l, m) || (BudgetOf(l, m) == 1 && (l.parallel == 0 || MostOf(l, m) == 0))
  }

  lemma TightIf(l: Limits, m: Measure) returns (g: Gate)
    requires BudgetOf(l, m) > 0 && TightWhen(l, m)
    ensures AtBound(l, m, g)
  {
    if CanSpend(l, m) {
      g := BoundIsReached(l, m);
    } else {
      ZeroIsReached(l, m);
      g := Gate(0, [], {});
    }
  }

  lemma TightOnlyIf(l: Limits, m: Measure)
    requires BudgetOf(l, m) > 0 && Tight(l, m)
    ensures TightWhen(l, m)
  {
    if !CanSpend(l, m) {
      var g :| AtBound(l, m, g);
      BoundIsZero(l, m, g);
    }
  }

  /** The overshoot bound is tight exactly then: some run reaches budget - 1 + K * M. */
  lemma BoundIsTightExactly(l: Limits, m: Measure)
    requires BudgetOf(l, m) > 0
    ensures Tight(l, m) <==> TightWhen(l, m)
    ensures Bound(l, m) == BudgetOf(l, m) - 1 + l.parallel * MostOf(l, m)
  {
    TimesIsProduct(l.parallel, MostOf(l, m));
    if TightWhen(l, m) {
      var g := TightIf(l, m);
      assert AtBound(l, m, g);
    }
    if Tight(l, m) { TightOnlyIf(l, m); }
  }
}
