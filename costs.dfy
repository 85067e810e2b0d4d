/** The cost/inventory report: enumerate the account's resources kind by
    kind, look up each one's unblended cost over a window of days, append
    two service-wide totals, and print the records either as a table or as
    Prometheus metric lines.

    Every API call is an input: each enumerator's answer (or the exception
    it raised) is a field of `Account`, and the Cost Explorer is a function
    from a query to its response. Amounts are of an abstract type `C`, with
    `float(text)` and the two printed forms given in `Numbers`. */
module Costs {
  import opened Wrappers
  import opened Text

  // ---------------------------------------------------------------- records

  /** The record kinds, in the order the report lists them. */
  datatype Kind = EC2 | EBS | S3 | ELB | RDS | Lambda | Subnet | DynamoDB | Redshift | SQS | SNS
                | NatGateway | CloudFront

  /** The text of the `type` column. */
  function Label(k: Kind): string
  {
    match k
    case EC2 => "EC2"
    case EBS => "EBS"
    case S3 => "S3"
    case ELB => "ELB"
    case RDS => "RDS"
    case Lambda => "Lambda"
    case Subnet => "Subnet"
    case DynamoDB => "DynamoDB"
    case Redshift => "Redshift"
    case SQS => "SQS"
    case SNS => "SNS"
    case NatGateway => "NAT Gateway"
    case CloudFront => "CloudFront"
  }

  /** Position of a kind in the report. */
  function Rank(k: Kind): nat
  {
    match k
    case EC2 => 0
    case EBS => 1
    case S3 => 2
    case ELB => 3
    case RDS => 4
    case Lambda => 5
    case Subnet => 6
    case DynamoDB => 7
    case Redshift => 8
    case SQS => 9
    case SNS => 10
    case NatGateway => 11
    case CloudFront => 12
  }

  /** The kinds that have an enumerator, in the order they are listed. */
  const Enumerated: seq<Kind> := [EC2, EBS, S3, ELB, RDS, Lambda, Subnet, DynamoDB, Redshift, SQS, SNS]

  /** One line of the report: kind, id and the cost, `None` when unknown. */
  datatype Record<C> = Record(kind: Kind, id: string, cost: Option<C>)

  /** `float(text)` and the two ways a float is printed: `str` (Prometheus)
      and `:.2f` (table). */
  datatype Numbers<!C> = Numbers(parse: string -> Option<C>, repr: C -> string, fixed2: C -> string)

  // ---------------------------------------------------------------- window

  /** A date window, as proleptic Gregorian day numbers (`date.toordinal()`). */
  datatype Window = Window(start: int, end: int)

  /** `date.min` and `date.max` as day numbers. */
  const MinDay := 1
  const MaxDay := 3652059

  /** The largest magnitude `timedelta` accepts for `days`. */
  const MaxDeltaDays := 999999999

  /** The range of a C `int`, which `timedelta` converts its day count to
      before checking the magnitude. */
  const CIntMin := -0x8000_0000
  const CIntMax := 0x7FFF_FFFF

  /** `timedelta(days=d)`: the day count, or the `OverflowError` it raises. */
  function Delta(d: int): (r: Result<int, string>)
    ensures r.Success? <==> -MaxDeltaDays <= d <= MaxDeltaDays
    ensures r.Success? ==> r.value == d
    ensures (d < CIntMin || CIntMax < d) ==> r == Failure("Python int too large to convert to C int")
  {
    if d < CIntMin || CIntMax < d then Failure("Python int too large to convert to C int")
    else if d < -MaxDeltaDays || MaxDeltaDays < d then
      Failure("days=" + IntToString(d) + "; must have magnitude <= 999999999")
    else Success(d)
  }

  /** `end = today; start = end - timedelta(days=period_days)`: `start` is
      exactly `period_days` days before `end`, with no check of the sign.
      A day count `timedelta` refuses raises first; otherwise a start
      outside the calendar raises `OverflowError: date value out of range`. */
  function WindowFor(today: int, periodDays: int): (r: Result<Window, string>)
    requires MinDay <= today <= MaxDay
    ensures r.Success? <==> Delta(periodDays).Success? && MinDay <= today - periodDays <= MaxDay
    ensures Delta(periodDays).Failure? ==> r == Failure(Delta(periodDays).error)
    ensures Delta(periodDays).Success? && r.Failure? ==> r.error == "date value out of range"
    ensures r.Success? ==> r.value.end == today && r.value.end - r.value.start == periodDays
    ensures r.Success? ==> (r.value.start <= r.value.end <==> periodDays >= 0)
  {
    match Delta(periodDays)
    case Failure(e) => Failure(e)
    case Success(d) =>
      if MinDay <= today - d <= MaxDay then Success(Window(today - d, today))
      else Failure("date value out of range")
  }

  /** `str(10**3)`, built up one digit at a time. */
  lemma ThousandText()
    ensures NatToString(1000) == "1000"
  {
    assert NatToString(10) == "10" by { AppendDigit(1, 0); }
    assert NatToString(100) == "100" by { AppendDigit(10, 0); }
    AppendDigit(100, 0);
  }

  /** `str(10**6)`. */
  lemma MillionText()
    ensures NatToString(1000000) == "1000000"
  {
    ThousandText();
    assert NatToString(10000) == "10000" by { AppendDigit(1000, 0); }
    assert NatToString(100000) == "100000" by { AppendDigit(10000, 0); }
    AppendDigit(100000, 0);
  }

  /** `str(10**9)`. */
  lemma BillionText()
    ensures NatToString(1000000000) == "1000000000"
  {
    MillionText();
    assert NatToString(10000000) == "10000000" by { AppendDigit(1000000, 0); }
    assert NatToString(100000000) == "100000000" by { AppendDigit(10000000, 0); }
    assert NatToString(1000000000) == "1000000000" by { AppendDigit(100000000, 0); }
  }

  /** A day count past `timedelta`'s range is reported with its value. */
  lemma DeltaOverflowMessage()
    ensures WindowFor(739000, 1000000000)
         == Failure("days=" + "1000000000" + "; must have magnitude <= 999999999")
    ensures WindowFor(739000, -1000000000)
         == Failure("days=" + "-1000000000" + "; must have magnitude <= 999999999")
  {
    BillionText();
    assert IntToString(1000000000) == "1000000000";
    assert IntToString(-1000000000) == "-1000000000";
  }

  /** A day count past a C `int` fails at the conversion; one within range
      whose start leaves the calendar fails at the subtraction. */
  lemma WindowOverflowKinds()
    ensures WindowFor(739000, 0x8000_0000) == Failure("Python int too large to convert to C int")
    ensures WindowFor(739000, 739000) == Failure("date value out of range")
  {
  }

  // ---------------------------------------------------------------- cost lookup

  datatype Dimension = ResourceId | Service

  /** A `get_cost_and_usage` call: MONTHLY granularity, UnblendedCost, and a
      filter on one dimension value. */
  datatype CostQuery = CostQuery(window: Window, dimension: Dimension, value: string)

  /** One element of `ResultsByTime`; `amount` is `Total.UnblendedCost.Amount`,
      `None` when one of those keys is missing. */
  datatype PeriodResult = PeriodResult(amount: Option<string>)

  /** The periods answered, or the exception the call raised. */
  type CeResponse = Result<seq<PeriodResult>, string>

  /** The body of `get_cost`/`get_cost_service`: the first period's amount,
      parsed; `None` whenever the call raised, no period came back, the
      amount is missing or does not parse. */
  function FirstAmount<C>(resp: CeResponse, num: Numbers<C>): (r: Option<C>)
    ensures r.Some? ==> resp.Success? && |resp.value| > 0 && resp.value[0].amount.Some?
    ensures resp.Success? && |resp.value| > 0 && resp.value[0].amount.Some? ==>
      r == num.parse(resp.value[0].amount.value)
  {
    match resp
    case Failure(_) => None
    case Success(periods) =>
      if |periods| == 0 then None
      else match periods[0].amount
        case None => None
        case Some(text) => num.parse(text)
  }

  /** Periods after the first never change the amount. */
  lemma LaterPeriodsIgnored<C>(first: PeriodResult, later: seq<PeriodResult>, num: Numbers<C>)
    ensures FirstAmount(Success([first] + later), num) == FirstAmount(Success([first]), num)
  {
    assert ([first] + later)[0] == first;
  }

  /** `get_cost(resource_id, ...)`: asks for the window's cost filtered on
      the resource id, and yields a cost exactly when that call answered a
      first period whose amount parses; every exception becomes `None`. */
  function GetCost<C>(resourceId: string, w: Window, ce: CostQuery -> CeResponse, num: Numbers<C>): (r: Option<C>)
    ensures var resp := ce(CostQuery(w, ResourceId, resourceId));
      r.Some? <==> resp.Success? && |resp.value| > 0 && resp.value[0].amount.Some?
                   && num.parse(resp.value[0].amount.value).Some?
    ensures var resp := ce(CostQuery(w, ResourceId, resourceId));
      r.Some? ==> r == num.parse(resp.value[0].amount.value)
  {
    FirstAmount(ce(CostQuery(w, ResourceId, resourceId)), num)
  }

  /** `get_cost_service(service_name, ...)`: the same lookup filtered on
      the service name instead of a resource id. */
  function GetCostService<C>(service: string, w: Window, ce: CostQuery -> CeResponse, num: Numbers<C>): (r: Option<C>)
    ensures var resp := ce(CostQuery(w, Service, service));
      r.Some? <==> resp.Success? && |resp.value| > 0 && resp.value[0].amount.Some?
                   && num.parse(resp.value[0].amount.value).Some?
    ensures var resp := ce(CostQuery(w, Service, service));
      r.Some? ==> r == num.parse(resp.value[0].amount.value)
  {
    FirstAmount(ce(CostQuery(w, Service, service)), num)
  }

  // ---------------------------------------------------------------- enumerators

  /** What each listing call of the account answered, or the exception it
      raised. The plain id lists are the ids the enumerators extract. */
  datatype Account = Account(
    instances: Result<seq<string>, string>,
    volumes: Result<seq<string>, string>,
    buckets: Result<seq<string>, string>,
    loadBalancers: Result<seq<string>, string>,
    dbInstances: Result<seq<string>, string>,
    functions: Result<seq<string>, string>,
    subnets: Result<seq<string>, string>,
    /** `list_tables()['TableNames']`: plain table-name strings. */
    tableNames: Result<seq<string>, string>,
    clusters: Result<seq<string>, string>,
    /** `list_queues().get('QueueUrls')`. */
    queueUrls: Result<Option<seq<string>>, string>,
    /** The `TopicArn` of each entry of `list_topics().get('Topics')`. */
    topicArns: Result<Option<seq<string>>, string>)

  /** `list_sqs`: the text after the last `/` of each queue URL; no URLs
      key means no queues. */
  function ListSqs(urls: Option<seq<string>>): (ids: seq<string>)
    ensures urls.None? ==> ids == []
    ensures urls.Some? ==> |ids| == |urls.value|
    ensures urls.Some? ==> forall i :: 0 <= i < |ids| ==>
      var u := urls.value[i];
      '/' !in ids[i] && |ids[i]| <= |u| && ids[i] == u[|u| - |ids[i]|..] && (|ids[i]| < |u| ==> u[|u| - |ids[i]| - 1] == '/')
  {
    match urls
    case None => []
    case Some(us) => seq(|us|, i requires 0 <= i < |us| => LastSegment(us[i], '/'))
  }

  /** `list_sns`: the text after the last `:` of each topic ARN; no topics
      key means no topics. */
  function ListSns(arns: Option<seq<string>>): (ids: seq<string>)
    ensures arns.None? ==> ids == []
    ensures arns.Some? ==> |ids| == |arns.value|
    ensures arns.Some? ==> forall i :: 0 <= i < |ids| ==>
      var t := arns.value[i];
      ':' !in ids[i] && |ids[i]| <= |t| && ids[i] == t[|t| - |ids[i]|..] && (|ids[i]| < |t| ==> t[|t| - |ids[i]| - 1] == ':')
  {
    match arns
    case None => []
    case Some(ts) => seq(|ts|, i requires 0 <= i < |ts| => LastSegment(ts[i], ':'))
  }

  /** `list_dynamodb` indexes each table-name STRING with `'TableName'`,
      which raises `TypeError`: it only succeeds when there is no table. */
  function ListDynamoDb(tableNames: seq<string>): (r: Result<seq<string>, string>)
    ensures r.Success? <==> tableNames == []
    ensures r.Success? ==> r.value == []
  {
    if tableNames == [] then Success([]) else Failure("string indices must be integers, not 'str'")
  }

  /** The enumerator of one kind: its ids, or the exception it raised.
      The two service-wide kinds have no enumerator and list nothing. */
  function Enumerate(a: Account, k: Kind): Result<seq<string>, string>
  {
    match k
    case EC2 => a.instances
    case EBS => a.volumes
    case S3 => a.buckets
    case ELB => a.loadBalancers
    case RDS => a.dbInstances
    case Lambda => a.functions
    case Subnet => a.subnets
    case DynamoDB =>
      (match a.tableNames
       case Failure(e) => Failure(e)
       case Success(names) => ListDynamoDb(names))
    case Redshift => a.clusters
    case SQS =>
      (match a.queueUrls
       case Failure(e) => Failure(e)
       case Success(urls) => Success(ListSqs(urls)))
    case SNS =>
      (match a.topicArns
       case Failure(e) => Failure(e)
       case Success(arns) => Success(ListSns(arns)))
    case NatGateway => Success([])
    case CloudFront => Success([])
  }

  /** What each enumerator answers, kind by kind. */
  type Listing = Kind -> Result<seq<string>, string>

  /** The account's enumerators as a listing. */
  function Listings(a: Account): Listing
  {
    k => Enumerate(a, k)
  }

  // ---------------------------------------------------------------- assembly

  /** The record `main` appends for one enumerated id: subnets get no cost
      and no lookup. */
  function RecordFor<C>(k: Kind, id: string, w: Window, ce: CostQuery -> CeResponse, num: Numbers<C>): Record<C>
  {
    Record(k, id, if k == Subnet then None else GetCost(id, w, ce, num))
  }

  function KindRecords<C>(k: Kind, ids: seq<string>, w: Window, ce: CostQuery -> CeResponse, num: Numbers<C>)
    : (rs: seq<Record<C>>)
    ensures |rs| == |ids|
  {
    if |ids| == 0 then []
    else KindRecords(k, ids[..|ids| - 1], w, ce, num) + [RecordFor(k, ids[|ids| - 1], w, ce, num)]
  }

  /** The records of the first `n` enumerated kinds, or the exception of the
      first enumerator that raised. */
  function Collected<C>(n: nat, ls: Listing, w: Window, ce: CostQuery -> CeResponse, num: Numbers<C>)
    : Result<seq<Record<C>>, string>
    requires n <= |Enumerated|
  {
    if n == 0 then Success([])
    else match Collected(n - 1, ls, w, ce, num)
      case Failure(e) => Failure(e)
      case Success(rs) =>
        match ls(Enumerated[n - 1])
        case Failure(e) => Failure(e)
        case Success(ids) => Success(rs + KindRecords(Enumerated[n - 1], ids, w, ce, num))
  }

  /** Once an enumerator has raised, no later kind changes the outcome. */
  lemma {:induction false} FailureSticks<C>(n: nat, m: nat, ls: Listing, w: Window, ce: CostQuery -> CeResponse, num: Numbers<C>)
    requires n <= m <= |Enumerated|
    requires Collected(n, ls, w, ce, num).Failure?
    ensures Collected(m, ls, w, ce, num) == Collected(n, ls, w, ce, num)
    decreases m - n
  {
    if n < m {
      FailureSticks(n, m - 1, ls, w, ce, num);
    }
  }

  /** The two service-wide pseudo-records appended last. */
  function ServiceRecords<C>(w: Window, ce: CostQuery -> CeResponse, num: Numbers<C>): seq<Record<C>>
  {
    [ Record(NatGateway, "All", GetCostService("NAT Gateway", w, ce, num)),
      Record(CloudFront, "All", GetCostService("Amazon CloudFront", w, ce, num)) ]
  }

  /** The `resources` list `main` hands to `print_output`, or the exception
      that stopped it. */
  function Resources<C>(a: Account, w: Window, ce: CostQuery -> CeResponse, num: Numbers<C>)
    : Result<seq<Record<C>>, string>
  {
    match Collected(|Enumerated|, Listings(a), w, ce, num)
    case Failure(e) => Failure(e)
    case Success(rs) => Success(rs + ServiceRecords(w, ce, num))
  }

  /** The Cost Explorer query issued for a record, if any. */
  function QueryOf<C>(r: Record<C>, w: Window): Option<CostQuery>
  {
    match r.kind
    case Subnet => None
    case NatGateway => Some(CostQuery(w, Service, "NAT Gateway"))
    case CloudFront => Some(CostQuery(w, Service, "Amazon CloudFront"))
    case _ => Some(CostQuery(w, ResourceId, r.id))
  }

  /** The queries issued for a list of records, in order. */
  function Queries<C>(rs: seq<Record<C>>, w: Window): seq<CostQuery>
  {
    if |rs| == 0 then []
    else Queries(rs[..|rs| - 1], w) + match QueryOf(rs[|rs| - 1], w) { case None => [] case Some(q) => [q] }
  }

  /** `Queries` of a list grown by one record. */
  lemma QueriesSnoc<C>(rs: seq<Record<C>>, r: Record<C>, w: Window)
    ensures Queries(rs + [r], w) == Queries(rs, w) + match QueryOf(r, w) { case None => [] case Some(q) => [q] }
  {
    assert (rs + [r])[..|rs|] == rs;
  }

  lemma EnumeratedKindsHaveIds(k: Kind)
    requires k in Enumerated
    ensures k != NatGateway && k != CloudFront
  {
  }

  /** One iteration of a kind's loop: the record for `ids[j]` extends both
      the records and the query log as the specification says. */
  lemma KindStep<C>(rs0: seq<Record<C>>, rs: seq<Record<C>>, lookups: seq<CostQuery>, kind: Kind, ids: seq<string>,
                    j: nat, w: Window, ce: CostQuery -> CeResponse, num: Numbers<C>)
    requires kind != NatGateway && kind != CloudFront && j < |ids|
    requires rs == rs0 + KindRecords(kind, ids[..j], w, ce, num) && lookups == Queries(rs, w)
    ensures rs + [RecordFor(kind, ids[j], w, ce, num)] == rs0 + KindRecords(kind, ids[..j + 1], w, ce, num)
    ensures Queries(rs + [RecordFor(kind, ids[j], w, ce, num)], w)
         == lookups + if kind == Subnet then [] else [CostQuery(w, ResourceId, ids[j])]
  {
    assert ids[..j + 1][..j] == ids[..j];
    QueriesSnoc(rs, RecordFor(kind, ids[j], w, ce, num), w);
  }

  /** One `for id in list_<kind>(...): resources.append(...)` loop of `main`. */
  method AppendKind<C>(rs0: seq<Record<C>>, lookups0: seq<CostQuery>, kind: Kind, ids: seq<string>,
                       w: Window, ce: CostQuery -> CeResponse, num: Numbers<C>)
    returns (rs: seq<Record<C>>, lookups: seq<CostQuery>)
    requires kind in Enumerated
    requires lookups0 == Queries(rs0, w)
    ensures rs == rs0 + KindRecords(kind, ids, w, ce, num)
    ensures lookups == Queries(rs, w)
  {
    EnumeratedKindsHaveIds(kind);
    rs, lookups := rs0, lookups0;
    var j := 0;
    while j < |ids|
      invariant 0 <= j <= |ids|
      invariant rs == rs0 + KindRecords(kind, ids[..j], w, ce, num)
      invariant lookups == Queries(rs, w)
    {
      KindStep(rs0, rs, lookups, kind, ids, j, w, ce, num);
      var cost: Option<C>;
      if kind == Subnet {
        cost := None;
      } else {
        cost := GetCost(ids[j], w, ce, num);
        lookups := lookups + [CostQuery(w, ResourceId, ids[j])];
      }
      rs := rs + [Record(kind, ids[j], cost)];
      j := j + 1;
    }
    assert ids[..j] == ids;
  }

  /** One iteration of the loop over kinds, as `Collected` describes it. */
  lemma CollectedStep<C>(n: nat, rs: seq<Record<C>>, ls: Listing, w: Window, ce: CostQuery -> CeResponse, num: Numbers<C>)
    requires n < |Enumerated| && Collected(n, ls, w, ce, num) == Success(rs)
    ensures ls(Enumerated[n]).Failure? ==> Collected(n + 1, ls, w, ce, num) == Failure(ls(Enumerated[n]).error)
    ensures ls(Enumerated[n]).Success? ==>
      Collected(n + 1, ls, w, ce, num) == Success(rs + KindRecords(Enumerated[n], ls(Enumerated[n]).value, w, ce, num))
  {
  }

  /** The two service totals add their two queries to the log. */
  lemma ServiceQueries<C>(rs: seq<Record<C>>, w: Window, ce: CostQuery -> CeResponse, num: Numbers<C>)
    ensures Queries(rs + ServiceRecords(w, ce, num), w)
         == Queries(rs, w) + [CostQuery(w, Service, "NAT Gateway"), CostQuery(w, Service, "Amazon CloudFront")]
  {
    var s := ServiceRecords(w, ce, num);
    QueriesSnoc(rs, s[0], w);
    QueriesSnoc(rs + [s[0]], s[1], w);
    assert rs + [s[0]] + [s[1]] == rs + s;
  }

  /** The record-building part of `main`: one loop per kind in the fixed
      order, appending a record per id, then the two service totals. Returns
      the records (or the exception that aborted the run) and the cost
      queries issued, in order. */
  method Aggregate<C>(a: Account, w: Window, ce: CostQuery -> CeResponse, num: Numbers<C>)
    returns (resources: Result<seq<Record<C>>, string>, lookups: seq<CostQuery>)
    ensures resources == Resources(a, w, ce, num)
    ensures resources.Success? ==> lookups == Queries(resources.value, w)
  {
    var collected;
    collected, lookups := CollectKinds(Listings(a), w, ce, num);
    if collected.Failure? {
      return Failure(collected.error), lookups;
    }
    var rs := collected.value;
    ServiceQueries(rs, w, ce, num);
    var natCost := GetCostService("NAT Gateway", w, ce, num);
    lookups := lookups + [CostQuery(w, Service, "NAT Gateway")];
    var cfCost := GetCostService("Amazon CloudFront", w, ce, num);
    lookups := lookups + [CostQuery(w, Service, "Amazon CloudFront")];
    resources := Success(rs + [Record(NatGateway, "All", natCost), Record(CloudFront, "All", cfCost)]);
  }

  /** The loops over the enumerated kinds: the records of every kind, or the
      exception of the first enumerator that raised, and the queries issued. */
  method CollectKinds<C>(ls: Listing, w: Window, ce: CostQuery -> CeResponse, num: Numbers<C>)
    returns (collected: Result<seq<Record<C>>, string>, lookups: seq<CostQuery>)
    ensures collected == Collected(|Enumerated|, ls, w, ce, num)
    ensures collected.Success? ==> lookups == Queries(collected.value, w)
  {
    var rs: seq<Record<C>> := [];
    lookups := [];
    var n := 0;
    while n < |Enumerated|
      invariant 0 <= n <= |Enumerated|
      invariant Collected(n, ls, w, ce, num) == Success(rs)
      invariant lookups == Queries(rs, w)
    {
      CollectedStep(n, rs, ls, w, ce, num);
      var listed := ls(Enumerated[n]);
      if listed.Failure? {
        FailureSticks(n + 1, |Enumerated|, ls, w, ce, num);
        return Failure(listed.error), lookups;
      }
      rs, lookups := AppendKind(rs, lookups, Enumerated[n], listed.value, w, ce, num);
      n := n + 1;
    }
    collected := Success(rs);
  }

  // ---------------------------------------------------------------- properties of the records

  /** Number of ids the first `n` enumerators returned. */
  function IdCount(n: nat, ls: Listing): nat
    requires n <= |Enumerated|
  {
    if n == 0 then 0
    else IdCount(n - 1, ls) + match ls(Enumerated[n - 1]) { case Success(ids) => |ids| case Failure(_) => 0 }
  }

  /** The ids of the records of kind `k`, in record order. */
  function IdsOf<C>(rs: seq<Record<C>>, k: Kind): seq<string>
  {
    if |rs| == 0 then []
    else IdsOf(rs[..|rs| - 1], k) + if rs[|rs| - 1].kind == k then [rs[|rs| - 1].id] else []
  }

  /** The cost a record should carry: none for a subnet, otherwise the
      first amount of the answer to its own query. */
  function CostAnswer<C>(r: Record<C>, w: Window, ce: CostQuery -> CeResponse, num: Numbers<C>): Option<C>
  {
    match QueryOf(r, w)
    case None => None
    case Some(q) => FirstAmount(ce(q), num)
  }

  lemma {:induction false} KindRecordsAt<C>(k: Kind, ids: seq<string>, w: Window, ce: CostQuery -> CeResponse,
                                            num: Numbers<C>, i: nat)
    requires i < |ids|
    ensures KindRecords(k, ids, w, ce, num)[i] == RecordFor(k, ids[i], w, ce, num)
  {
    if i < |ids| - 1 {
      KindRecordsAt(k, ids[..|ids| - 1], w, ce, num, i);
    }
  }

  lemma {:induction false} IdsOfAppend<C>(xs: seq<Record<C>>, ys: seq<Record<C>>, k: Kind)
    ensures IdsOf(xs + ys, k) == IdsOf(xs, k) + IdsOf(ys, k)
    decreases |ys|
  {
    if |ys| == 0 {
      assert xs + ys == xs;
    } else {
      assert (xs + ys)[..|xs + ys| - 1] == xs + ys[..|ys| - 1];
      IdsOfAppend(xs, ys[..|ys| - 1], k);
    }
  }

  /** Filtering one kind's records by kind gives back its ids or nothing. */
  lemma {:induction false} IdsOfKindRecords<C>(kind: Kind, ids: seq<string>, w: Window, ce: CostQuery -> CeResponse,
                                               num: Numbers<C>, k: Kind)
    ensures IdsOf(KindRecords(kind, ids, w, ce, num), k) == if k == kind then ids else []
  {
    if |ids| > 0 {
      var init := ids[..|ids| - 1];
      IdsOfKindRecords(kind, init, w, ce, num, k);
      var rs := KindRecords(kind, ids, w, ce, num);
      var last := RecordFor(kind, ids[|ids| - 1], w, ce, num);
      assert rs == KindRecords(kind, init, w, ce, num) + [last];
      assert rs[..|rs| - 1] == KindRecords(kind, init, w, ce, num);
      assert IdsOf(rs, k) == IdsOf(KindRecords(kind, init, w, ce, num), k) + if kind == k then [ids[|ids| - 1]] else [];
      assert init + [ids[|ids| - 1]] == ids;
    }
  }

  /** A kind that no record has contributes no ids. */
  lemma {:induction false} IdsOfAbsent<C>(rs: seq<Record<C>>, k: Kind)
    requires forall i :: 0 <= i < |rs| ==> rs[i].kind != k
    ensures IdsOf(rs, k) == []
  {
    if |rs| > 0 {
      IdsOfAbsent(rs[..|rs| - 1], k);
    }
  }

  lemma EnumeratedRanks()
    ensures forall i :: 0 <= i < |Enumerated| ==> Rank(Enumerated[i]) == i
  {
  }

  /** The records of the first `n` kinds number as many as their ids. */
  lemma {:induction false} CollectedCount<C>(n: nat, ls: Listing, w: Window, ce: CostQuery -> CeResponse, num: Numbers<C>)
    requires n <= |Enumerated|
    requires Collected(n, ls, w, ce, num).Success?
    ensures |Collected(n, ls, w, ce, num).value| == IdCount(n, ls)
  {
    if n > 0 {
      CollectedCount(n - 1, ls, w, ce, num);
    }
  }

  /** The records of the first `n` kinds are of those kinds, in kind order. */
  lemma {:induction false} CollectedOrder<C>(n: nat, ls: Listing, w: Window, ce: CostQuery -> CeResponse, num: Numbers<C>)
    requires n <= |Enumerated|
    requires Collected(n, ls, w, ce, num).Success?
    ensures var rs := Collected(n, ls, w, ce, num).value;
      && (forall i :: 0 <= i < |rs| ==> Rank(rs[i].kind) < n)
      && (forall i, j :: 0 <= i < j < |rs| ==> Rank(rs[i].kind) <= Rank(rs[j].kind))
  {
    if n > 0 {
      CollectedOrder(n - 1, ls, w, ce, num);
      EnumeratedRanks();
      var prev := Collected(n - 1, ls, w, ce, num).value;
      var kind := Enumerated[n - 1];
      var more := KindRecords(kind, ls(kind).value, w, ce, num);
      forall i | 0 <= i < |more| ensures more[i].kind == kind {
        KindRecordsAt(kind, ls(kind).value, w, ce, num, i);
      }
      assert Collected(n, ls, w, ce, num).value == prev + more;
    }
  }

  /** Each of the first `n` kinds had its enumerator answer, and its records
      carry exactly the enumerated ids, in enumeration order. */
  lemma {:induction false} CollectedIds<C>(n: nat, ls: Listing, w: Window, ce: CostQuery -> CeResponse, num: Numbers<C>)
    requires n <= |Enumerated|
    requires Collected(n, ls, w, ce, num).Success?
    ensures forall m :: 0 <= m < n ==> ls(Enumerated[m]).Success?
    ensures forall m :: 0 <= m < n ==>
      IdsOf(Collected(n, ls, w, ce, num).value, Enumerated[m]) == ls(Enumerated[m]).value
  {
    if n > 0 {
      CollectedIds(n - 1, ls, w, ce, num);
      CollectedOrder(n - 1, ls, w, ce, num);
      EnumeratedRanks();
      var prev := Collected(n - 1, ls, w, ce, num).value;
      var kind := Enumerated[n - 1];
      var ids := ls(kind).value;
      var more := KindRecords(kind, ids, w, ce, num);
      assert Collected(n, ls, w, ce, num).value == prev + more;
      forall m | 0 <= m < n ensures IdsOf(prev + more, Enumerated[m]) == ls(Enumerated[m]).value {
        IdsOfAppend(prev, more, Enumerated[m]);
        IdsOfKindRecords(kind, ids, w, ce, num, Enumerated[m]);
        if m == n - 1 {
          IdsOfAbsent(prev, kind);
        }
      }
    }
  }

  /** Every record carries the answer to its own query as its cost. */
  ghost predicate CostsAnswered<C>(rs: seq<Record<C>>, w: Window, ce: CostQuery -> CeResponse, num: Numbers<C>)
  {
    forall i :: 0 <= i < |rs| ==> rs[i].cost == CostAnswer(rs[i], w, ce, num)
  }

  lemma CostsAnsweredAppend<C>(xs: seq<Record<C>>, ys: seq<Record<C>>, w: Window, ce: CostQuery -> CeResponse,
                               num: Numbers<C>)
    requires CostsAnswered(xs, w, ce, num) && CostsAnswered(ys, w, ce, num)
    ensures CostsAnswered(xs + ys, w, ce, num)
  {
    forall i | 0 <= i < |xs + ys| ensures (xs + ys)[i].cost == CostAnswer((xs + ys)[i], w, ce, num) {
      if i >= |xs| {
        assert (xs + ys)[i] == ys[i - |xs|];
      }
    }
  }

  /** The records of one enumerated kind carry the answers to their queries. */
  lemma {:induction false} KindRecordsAnswered<C>(kind: Kind, ids: seq<string>, w: Window, ce: CostQuery -> CeResponse,
                                                  num: Numbers<C>)
    requires kind != NatGateway && kind != CloudFront
    ensures CostsAnswered(KindRecords(kind, ids, w, ce, num), w, ce, num)
  {
    if |ids| > 0 {
      KindRecordsAnswered(kind, ids[..|ids| - 1], w, ce, num);
      CostsAnsweredAppend(KindRecords(kind, ids[..|ids| - 1], w, ce, num),
                          [RecordFor(kind, ids[|ids| - 1], w, ce, num)], w, ce, num);
    }
  }

  /** Every record of the first `n` kinds carries the answer to its own
      query as its cost. */
  lemma {:induction false} CollectedCosts<C>(n: nat, ls: Listing, w: Window, ce: CostQuery -> CeResponse, num: Numbers<C>)
    requires n <= |Enumerated|
    requires Collected(n, ls, w, ce, num).Success?
    ensures CostsAnswered(Collected(n, ls, w, ce, num).value, w, ce, num)
  {
    if n > 0 {
      CollectedCosts(n - 1, ls, w, ce, num);
      var kind := Enumerated[n - 1];
      var ids := ls(kind).value;
      KindRecordsAnswered(kind, ids, w, ce, num);
      CostsAnsweredAppend(Collected(n - 1, ls, w, ce, num).value, KindRecords(kind, ids, w, ce, num), w, ce, num);
    }
  }

  /** The run aborts exactly when some enumerator raised. */
  lemma {:induction false} CollectedFailure<C>(n: nat, ls: Listing, w: Window, ce: CostQuery -> CeResponse, num: Numbers<C>)
    requires n <= |Enumerated|
    ensures Collected(n, ls, w, ce, num).Failure? <==> exists m :: 0 <= m < n && ls(Enumerated[m]).Failure?
  {
    if n > 0 {
      CollectedFailure(n - 1, ls, w, ce, num);
    }
  }

  /** An aborted run carries the exception of the FIRST enumerator that
      raised, in kind order. */
  lemma {:induction false} CollectedFirstFailure<C>(n: nat, ls: Listing, w: Window, ce: CostQuery -> CeResponse,
                                                    num: Numbers<C>)
    requires n <= |Enumerated|
    requires Collected(n, ls, w, ce, num).Failure?
    ensures exists m :: 0 <= m < n && ls(Enumerated[m]) == Failure(Collected(n, ls, w, ce, num).error)
              && forall m' :: 0 <= m' < m ==> ls(Enumerated[m']).Success?
  {
    var prev := Collected(n - 1, ls, w, ce, num);
    if prev.Failure? {
      CollectedFirstFailure(n - 1, ls, w, ce, num);
    } else {
      CollectedFailure(n - 1, ls, w, ce, num);
      assert ls(Enumerated[n - 1]) == Failure(Collected(n, ls, w, ce, num).error);
    }
  }

  /** The report aborts exactly when an enumerator raised. */
  lemma ResourcesFailure<C>(a: Account, w: Window, ce: CostQuery -> CeResponse, num: Numbers<C>)
    ensures Resources(a, w, ce, num).Failure? <==> exists m :: 0 <= m < |Enumerated| && Enumerate(a, Enumerated[m]).Failure?
    ensures Resources(a, w, ce, num).Failure? ==>
      exists m :: 0 <= m < |Enumerated| && Enumerate(a, Enumerated[m]) == Failure(Resources(a, w, ce, num).error)
              && forall m' :: 0 <= m' < m ==> Enumerate(a, Enumerated[m']).Success?
  {
    CollectedFailure(|Enumerated|, Listings(a), w, ce, num);
    if Resources(a, w, ce, num).Failure? {
      CollectedFirstFailure(|Enumerated|, Listings(a), w, ce, num);
    }
  }

  /** The report has two records more than there are enumerated ids, the
      NAT Gateway total then the CloudFront total last. */
  lemma ResourcesShape<C>(a: Account, w: Window, ce: CostQuery -> CeResponse, num: Numbers<C>)
    requires Resources(a, w, ce, num).Success?
    ensures var rs := Resources(a, w, ce, num).value;
      && |rs| == IdCount(|Enumerated|, Listings(a)) + 2
      && rs[|rs| - 2] == Record(NatGateway, "All", GetCostService("NAT Gateway", w, ce, num))
      && rs[|rs| - 1] == Record(CloudFront, "All", GetCostService("Amazon CloudFront", w, ce, num))
  {
    CollectedCount(|Enumerated|, Listings(a), w, ce, num);
  }

  /** Kinds appear in the fixed order, the service totals only at the end. */
  lemma ResourcesOrder<C>(a: Account, w: Window, ce: CostQuery -> CeResponse, num: Numbers<C>)
    requires Resources(a, w, ce, num).Success?
    ensures var rs := Resources(a, w, ce, num).value;
      && (forall i, j :: 0 <= i < j < |rs| ==> Rank(rs[i].kind) <= Rank(rs[j].kind))
      && (forall i :: 0 <= i < |rs| - 2 ==> Rank(rs[i].kind) < |Enumerated|)
  {
    CollectedOrder(|Enumerated|, Listings(a), w, ce, num);
    TotalsKeepOrder(Collected(|Enumerated|, Listings(a), w, ce, num).value, w, ce, num);
  }

  lemma TotalsKeepOrder<C>(prev: seq<Record<C>>, w: Window, ce: CostQuery -> CeResponse, num: Numbers<C>)
    requires forall i :: 0 <= i < |prev| ==> Rank(prev[i].kind) < |Enumerated|
    requires forall i, j :: 0 <= i < j < |prev| ==> Rank(prev[i].kind) <= Rank(prev[j].kind)
    ensures var rs := prev + ServiceRecords(w, ce, num);
      && (forall i, j :: 0 <= i < j < |rs| ==> Rank(rs[i].kind) <= Rank(rs[j].kind))
      && (forall i :: 0 <= i < |rs| - 2 ==> Rank(rs[i].kind) < |Enumerated|)
  {
    var rs := prev + ServiceRecords(w, ce, num);
    assert forall i :: 0 <= i < |rs| ==> Rank(rs[i].kind) == if i < |prev| then Rank(prev[i].kind) else 11 + (i - |prev|);
  }

  /** Each enumerated kind's records carry exactly its ids, in enumeration
      order: every id appears once under its kind. */
  lemma ResourcesIds<C>(a: Account, w: Window, ce: CostQuery -> CeResponse, num: Numbers<C>)
    requires Resources(a, w, ce, num).Success?
    ensures forall m :: 0 <= m < |Enumerated| ==>
      Enumerate(a, Enumerated[m]).Success? &&
      IdsOf(Resources(a, w, ce, num).value, Enumerated[m]) == Enumerate(a, Enumerated[m]).value
  {
    CollectedIds(|Enumerated|, Listings(a), w, ce, num);
    var prev := Collected(|Enumerated|, Listings(a), w, ce, num).value;
    forall m | 0 <= m < |Enumerated|
      ensures IdsOf(prev + ServiceRecords(w, ce, num), Enumerated[m]) == IdsOf(prev, Enumerated[m])
    {
      TotalsAddNoIds(prev, w, ce, num, Enumerated[m]);
    }
  }

  lemma TotalsAddNoIds<C>(prev: seq<Record<C>>, w: Window, ce: CostQuery -> CeResponse, num: Numbers<C>, k: Kind)
    requires k in Enumerated
    ensures IdsOf(prev + ServiceRecords(w, ce, num), k) == IdsOf(prev, k)
  {
    IdsOfAppend(prev, ServiceRecords(w, ce, num), k);
    IdsOfAbsent(ServiceRecords(w, ce, num), k);
  }

  /** Every cost in the report is the answer to that record's own query;
      in particular every `Subnet` record has no cost. */
  lemma ResourcesCosts<C>(a: Account, w: Window, ce: CostQuery -> CeResponse, num: Numbers<C>)
    requires Resources(a, w, ce, num).Success?
    ensures var rs := Resources(a, w, ce, num).value;
      && (forall i :: 0 <= i < |rs| ==> rs[i].cost == CostAnswer(rs[i], w, ce, num))
      && (forall i :: 0 <= i < |rs| && rs[i].kind == Subnet ==> rs[i].cost == None)
  {
    CollectedCosts(|Enumerated|, Listings(a), w, ce, num);
    assert CostsAnswered(ServiceRecords(w, ce, num), w, ce, num);
    CostsAnsweredAppend(Collected(|Enumerated|, Listings(a), w, ce, num).value, ServiceRecords(w, ce, num), w, ce, num);
  }

  /** The query log has exactly one entry per record that is not a subnet. */
  lemma {:induction false} QueriesCount<C>(rs: seq<Record<C>>, w: Window)
    ensures |Queries(rs, w)| == |rs| - |IdsOf(rs, Subnet)|
  {
    if |rs| > 0 {
      QueriesCount(rs[..|rs| - 1], w);
    }
  }

  /** `list_dynamodb` aborts the whole report as soon as one table exists. */
  lemma DynamoDbTableAborts<C>(a: Account, w: Window, ce: CostQuery -> CeResponse, num: Numbers<C>)
    requires a.tableNames.Success? && a.tableNames.value != []
    ensures Resources(a, w, ce, num).Failure?
  {
    ResourcesFailure(a, w, ce, num);
    assert Enumerated[7] == DynamoDB;
    assert Enumerate(a, Enumerated[7]).Failure?;
  }

  // ---------------------------------------------------------------- presenter

  /** The value printed after a Prometheus metric: the cost, or `0`. */
  function MetricValue<C>(cost: Option<C>, num: Numbers<C>): string
  {
    match cost
    case None => "0"
    case Some(c) => num.repr(c)
  }

  const Quote: char := '"'

  /** `aws_cost{resource="<id>",type="<kind>"} <value>`. */
  function MetricLine<C>(r: Record<C>, num: Numbers<C>): (m: string)
    ensures |m| >= 19 + |r.id| && m[..19] == "aws_cost{resource=" + [Quote] && m[19..19 + |r.id|] == r.id
    ensures |m| > |MetricValue(r.cost, num)| && m[|m| - |MetricValue(r.cost, num)| - 1..] == " " + MetricValue(r.cost, num)
  {
    "aws_cost{resource=" + [Quote] + r.id + [Quote] + ",type=" + [Quote] + Label(r.kind) + [Quote] + "} " + MetricValue(r.cost, num)
  }

  /** The table's cost column: two decimals, or `N/A`. */
  function CostText<C>(cost: Option<C>, num: Numbers<C>): string
  {
    match cost
    case None => "N/A"
    case Some(c) => num.fixed2(c)
  }

  const TableHeader: string := PadRight("Type", 15) + " " + PadRight("ResourceId", 40) + " " + PadLeft("Cost($)", 10)
  const TableRule: string := Repeat('-', 70)

  /** `f"{rtype:<15} {rid:<40} {cost_str:>10}"`: the kind starts the row,
      the id starts column 17, the cost text ends it. */
  function TableRow<C>(r: Record<C>, num: Numbers<C>): (t: string)
    ensures |t| >= 67 && |t| >= 16 + |r.id| && |t| >= |CostText(r.cost, num)|
    ensures t[..|Label(r.kind)|] == Label(r.kind) && t[15] == ' '
    ensures t[16..16 + |r.id|] == r.id
    ensures t[|t| - |CostText(r.cost, num)|..] == CostText(r.cost, num)
  {
    var kind := PadRight(Label(r.kind), 15);
    var id := PadRight(r.id, 40);
    var cost := PadLeft(CostText(r.cost, num), 10);
    assert |Label(r.kind)| <= 15;
    assert (kind + " " + id + " ")[16..16 + |r.id|] == id[..|r.id|];
    kind + " " + id + " " + cost
  }

  /** What `print_output` prints for `rs`: one metric line per record, or
      a header, a rule and one row per record. */
  ghost predicate Printed<C>(lines: seq<string>, rs: seq<Record<C>>, prometheus: bool, num: Numbers<C>)
  {
    if prometheus then
      |lines| == |rs| && forall i :: 0 <= i < |rs| ==> lines[i] == MetricLine(rs[i], num)
    else
      |lines| == |rs| + 2 && lines[0] == TableHeader && lines[1] == TableRule
      && forall i :: 0 <= i < |rs| ==> lines[i + 2] == TableRow(rs[i], num)
  }

  /** `print_output`: the lines printed, in order. */
  method PrintOutput<C>(rs: seq<Record<C>>, prometheus: bool, num: Numbers<C>) returns (lines: seq<string>)
    ensures Printed(lines, rs, prometheus, num)
  {
    if prometheus {
      lines := RecordLines(rs, r => MetricLine(r, num));
    } else {
      var rows := RecordLines(rs, r => TableRow(r, num));
      lines := [TableHeader, TableRule] + rows;
      assert forall i :: 0 <= i < |rs| ==> lines[i + 2] == rows[i];
    }
  }

  /** A `for r in resources: print(...)` loop of `print_output`, with the
      line format as a parameter: one line per record, in order. */
  method RecordLines<C>(rs: seq<Record<C>>, format: Record<C> -> string) returns (lines: seq<string>)
    ensures |lines| == |rs| && forall i :: 0 <= i < |rs| ==> lines[i] == format(rs[i])
  {
    lines := [];
    var i := 0;
    while i < |rs|
      invariant 0 <= i <= |rs|
      invariant |lines| == i && forall j :: 0 <= j < i ==> lines[j] == format(rs[j])
    {
      lines := lines + [format(rs[i])];
      i := i + 1;
    }
  }

  /** A metric line splits at its double quotes into exactly its labels:
      the id and the kind can be read back when neither they nor the value
      contain a double quote. */
  lemma MetricLineLabels<C>(r: Record<C>, num: Numbers<C>)
    requires Quote !in r.id && Quote !in MetricValue(r.cost, num)
    ensures Split(MetricLine(r, num), Quote) == ["aws_cost{resource=", r.id, ",type=", Label(r.kind), "} " + MetricValue(r.cost, num)]
  {
    LabelUnquoted(r.kind);
    MetricLiteralsUnquoted();
    SplitJoinFive("aws_cost{resource=", r.id, ",type=", Label(r.kind), "} ", MetricValue(r.cost, num), Quote);
  }

  lemma LabelUnquoted(k: Kind)
    ensures Quote !in Label(k)
  {
  }

  lemma MetricLiteralsUnquoted()
    ensures Quote !in "aws_cost{resource=" && Quote !in ",type=" && Quote !in "} "
  {
  }

  /** A record with no cost prints `0` as a metric but `N/A` in the table. */
  lemma MissingCostDiverges<C>(r: Record<C>, num: Numbers<C>)
    requires r.cost.None?
    ensures var m := MetricLine(r, num); m[|m| - 2..] == " 0"
    ensures var t := TableRow(r, num); t[|t| - 3..] == "N/A"
  {
  }

  /** A row whose id fits in 40 columns and whose cost fits in 10 is exactly
      as wide as the header, with the cost right-aligned under `Cost($)`. */
  lemma TableRowWidth<C>(r: Record<C>, num: Numbers<C>)
    requires |r.id| <= 40 && |CostText(r.cost, num)| <= 10
    ensures |TableRow(r, num)| == |TableHeader| == 67
    ensures var t := TableRow(r, num); var c := CostText(r.cost, num); t[67 - |c|..] == c
  {
  }

  // ---------------------------------------------------------------- the script

  /** What the script's `main` produces before printing, or the exception
      that ends it: opening the session, computing the window, then the
      records. */
  function RunRecords<C>(session: Result<Account, string>, today: int, periodDays: int,
                         ce: CostQuery -> CeResponse, num: Numbers<C>): Result<seq<Record<C>>, string>
    requires MinDay <= today <= MaxDay
  {
    match session
    case Failure(e) => Failure(e)
    case Success(a) =>
      match WindowFor(today, periodDays)
      case Failure(e) => Failure(e)
      case Success(w) => Resources(a, w, ce, num)
  }

  /** The script: `main` inside `try`, any exception printed as
      `Erreur: <message>` with exit status 1, before anything else is printed. */
  method Run<C>(session: Result<Account, string>, today: int, periodDays: int, prometheus: bool,
                ce: CostQuery -> CeResponse, num: Numbers<C>)
    returns (lines: seq<string>, exitCode: int)
    requires MinDay <= today <= MaxDay
    ensures var out := RunRecords(session, today, periodDays, ce, num);
      && (exitCode == 0 <==> out.Success?)
      && (out.Failure? ==> exitCode == 1 && lines == ["Erreur: " + out.error])
      && (out.Success? ==> Printed(lines, out.value, prometheus, num))
  {
    if session.Failure? {
      return ["Erreur: " + session.error], 1;
    }
    var window := WindowFor(today, periodDays);
    if window.Failure? {
      return ["Erreur: " + window.error], 1;
    }
    var resources, _ := Aggregate(session.value, window.value, ce, num);
    if resources.Failure? {
      return ["Erreur: " + resources.error], 1;
    }
    lines := PrintOutput(resources.value, prometheus, num);
    exitCode := 0;
  }
}
