/** Visit analytics: the keys a visit increments, the once-per-session
    latch around that increment, the 62 reads of the statistics panel, the
    parsing of each reply entry, and the reduction of the replies to six
    metrics. The key-value store behind the pipeline endpoint is a map from
    key to counter; the endpoint itself is a function passed in. */
module Analytics {
  import opened Basics
  import opened Devices

  /** One pipeline command. */
  datatype Command = Incr(key: string) | Get(key: string)

  const DefaultAppKey := "ap_public"

  /** `st.secrets.get("APP_ANALYTICS_KEY", "ap_public")`. */
  function AppKey(secret: Option<string>): string {
    secret.GetOr(DefaultAppKey)
  }

  /** `f"visits:{app_key}:{device}:{scope}"`. */
  function VisitKey(appKey: string, device: string, scope: string): string {
    "visits:" + appKey + ":" + device + ":" + scope
  }

  function DeviceType(userAgent: string): string {
    if IsMobile(userAgent) then "mobile" else "desktop"
  }

  // ---------------------------------------------------------------------
  // Tracking a visit

  /** What a visit reads before it sends anything: the user-agent header
      ("" when absent), the analytics key secret (None when unset) and
      today's date in the exchange's time zone. */
  datatype VisitContext = VisitContext(userAgent: string, appKeySecret: Option<string>, today: string)

  /** The four increments of one visit, in the order they are sent. */
  function VisitBatch(ctx: VisitContext): (cmds: seq<Command>)
    ensures |cmds| == 4 && forall i :: 0 <= i < 4 ==> cmds[i].Incr?
  {
    var k := AppKey(ctx.appKeySecret);
    var d := DeviceType(ctx.userAgent);
    [ Incr(VisitKey(k, "web", "total")),
      Incr(VisitKey(k, "web", ctx.today)),
      Incr(VisitKey(k, d, "total")),
      Incr(VisitKey(k, d, ctx.today)) ]
  }

  /** For any date other than the word "total", a visit increments four
      different counters: every visit under "web", and the visit under its
      device type, each as an all-time and a per-day counter. */
  lemma VisitBatchKeysDistinct(ctx: VisitContext)
    requires ctx.today != "total"
    ensures forall i, j :: 0 <= i < j < 4 ==> VisitBatch(ctx)[i].key != VisitBatch(ctx)[j].key
  {
    var k := AppKey(ctx.appKeySecret);
    var d := DeviceType(ctx.userAgent);
    var p := "visits:" + k + ":";
    assert VisitKey(k, "web", "total") == p + ("web:" + "total");
    assert VisitKey(k, "web", ctx.today) == p + ("web:" + ctx.today);
    assert VisitKey(k, d, "total") == p + (d + ":" + "total");
    assert VisitKey(k, d, ctx.today) == p + (d + ":" + ctx.today);
    assert ("web:" + "total")[4..] == "total" && ("web:" + ctx.today)[4..] == ctx.today;
    assert (d + ":" + "total")[|d| + 1..] == "total" && (d + ":" + ctx.today)[|d| + 1..] == ctx.today;
    assert ("web:" + "total")[0] == 'w' && ("web:" + ctx.today)[0] == 'w';
    assert (d + ":" + "total")[0] == d[0] && (d + ":" + ctx.today)[0] == d[0];
    PrefixDiffers(p, "web:" + "total", "web:" + ctx.today);
    PrefixDiffers(p, "web:" + "total", d + ":" + "total");
    PrefixDiffers(p, "web:" + "total", d + ":" + ctx.today);
    PrefixDiffers(p, "web:" + ctx.today, d + ":" + "total");
    PrefixDiffers(p, "web:" + ctx.today, d + ":" + ctx.today);
    PrefixDiffers(p, d + ":" + "total", d + ":" + ctx.today);
  }

  lemma PrefixDiffers(p: string, a: string, b: string)
    requires a != b
    ensures p + a != p + b
  {
    assert (p + a)[|p|..] == a && (p + b)[|p|..] == b;
  }

  /** `st.session_state["_av_tracked"]` and, as a ghost log, the batches
      the session has sent. */
  class VisitTracker {
    var tracked: bool
    ghost var sent: seq<seq<Command>>

    ghost predicate Valid()
      reads this
    {
      |sent| <= 1 && (tracked <==> |sent| == 1)
    }

    constructor()
      ensures Valid() && !tracked && sent == []
    {
      tracked := false;
      sent := [];
    }

    /** `track_visit_once_per_session()`. `ctx` is None when reading the
        context raised, which the function swallows before sending.
        `request` is the pipeline handed to the endpoint, if any; whatever
        the endpoint does, the latch is set once a request has gone. */
    method TrackVisitOncePerSession(ctx: Option<VisitContext>) returns (request: Option<seq<Command>>)
      requires Valid()
      modifies this
      ensures Valid()
      ensures old(tracked) ==> request == None && tracked && sent == old(sent)
      ensures !old(tracked) && ctx.Some? ==>
                request == Some(VisitBatch(ctx.value)) && tracked && sent == old(sent) + [VisitBatch(ctx.value)]
      ensures !old(tracked) && ctx.None? ==> request == None && !tracked && sent == old(sent)
      ensures request.Some? ==> |request.value| == 4
    {
      if tracked {
        return None;
      }
      match ctx
      case None =>
        request := None;
      case Some(c) =>
        var cmds := VisitBatch(c);
        request := Some(cmds);
        sent := sent + [cmds];
        tracked := true;
    }
  }

  // ---------------------------------------------------------------------
  // The statistics reads

  /** The 62 reads for a 30-day date list: the two all-time counters, then
      one per day under "web", then one per day under "mobile". */
  function StatsLayout(appKey: string, days: seq<string>): seq<Command> {
    [Get(VisitKey(appKey, "web", "total")), Get(VisitKey(appKey, "mobile", "total"))]
      + seq(|days|, i requires 0 <= i < |days| => Get(VisitKey(appKey, "web", days[i])))
      + seq(|days|, i requires 0 <= i < |days| => Get(VisitKey(appKey, "mobile", days[i])))
  }

  /** Where each read sits in the pipeline. */
  lemma StatsLayoutIndices(appKey: string, days: seq<string>)
    requires |days| == 30
    ensures |StatsLayout(appKey, days)| == 62
    ensures StatsLayout(appKey, days)[0] == Get(VisitKey(appKey, "web", "total"))
    ensures StatsLayout(appKey, days)[1] == Get(VisitKey(appKey, "mobile", "total"))
    ensures forall i :: 0 <= i < 30 ==> StatsLayout(appKey, days)[2 + i] == Get(VisitKey(appKey, "web", days[i]))
    ensures forall i :: 0 <= i < 30 ==> StatsLayout(appKey, days)[32 + i] == Get(VisitKey(appKey, "mobile", days[i]))
    ensures forall j :: 0 <= j < 62 ==> StatsLayout(appKey, days)[j].Get?
  {
  }

  /** The statistics read the counters a mobile visit on one of the days
      increments. */
  lemma StatsReadMobileVisits(ctx: VisitContext, days: seq<string>, i: nat)
    requires IsMobile(ctx.userAgent) && i < |days| && ctx.today == days[i]
    ensures StatsLayout(AppKey(ctx.appKeySecret), days)[1].key == VisitBatch(ctx)[2].key
    ensures StatsLayout(AppKey(ctx.appKeySecret), days)[2 + |days| + i].key == VisitBatch(ctx)[3].key
    ensures StatsLayout(AppKey(ctx.appKeySecret), days)[0].key == VisitBatch(ctx)[0].key
    ensures StatsLayout(AppKey(ctx.appKeySecret), days)[2 + i].key == VisitBatch(ctx)[1].key
  {
  }

  /** The command list of `get_stats`, built by appending in two loops. */
  method BuildStatsCommands(appKey: string, days: seq<string>) returns (cmds: seq<Command>)
    ensures cmds == StatsLayout(appKey, days)
  {
    cmds := [Get(VisitKey(appKey, "web", "total")), Get(VisitKey(appKey, "mobile", "total"))];
    var i := 0;
    while i < |days|
      invariant 0 <= i <= |days|
      invariant |cmds| == 2 + i
      invariant cmds[..2] == StatsLayout(appKey, days)[..2]
      invariant forall j :: 0 <= j < i ==> cmds[2 + j] == Get(VisitKey(appKey, "web", days[j]))
    {
      cmds := cmds + [Get(VisitKey(appKey, "web", days[i]))];
      i := i + 1;
    }
    i := 0;
    while i < |days|
      invariant 0 <= i <= |days|
      invariant |cmds| == 2 + |days| + i
      invariant cmds[..2] == StatsLayout(appKey, days)[..2]
      invariant forall j :: 0 <= j < |days| ==> cmds[2 + j] == Get(VisitKey(appKey, "web", days[j]))
      invariant forall j :: 0 <= j < i ==> cmds[2 + |days| + j] == Get(VisitKey(appKey, "mobile", days[j]))
    {
      cmds := cmds + [Get(VisitKey(appKey, "mobile", days[i]))];
      i := i + 1;
    }
    var layout := StatsLayout(appKey, days);
    assert |cmds| == |layout|;
    forall j | 0 <= j < |cmds| ensures cmds[j] == layout[j] {
      if j < 2 {
        assert cmds[j] == cmds[..2][j];
      }
    }
  }

  // ---------------------------------------------------------------------
  // Reply entries and `parse_val`

  /** The `result` of an entry: JSON null, a string or an integer. */
  datatype ResultValue = RNull | RStr(s: string) | RInt(i: int)

  /** One entry of the reply list: `None`, an object whose `result` key is
      absent (None) or present, or any other JSON value. */
  datatype Entry = ENone | EObject(result: Option<ResultValue>) | EOther

  /** A run of decimal digits in which single underscores may separate two
      digits, as `int()` accepts it. */
  predicate WellFormedDigits(u: string) {
    u != [] && IsDigit(u[0]) && IsDigit(u[|u| - 1])
    && forall i :: 0 <= i < |u| ==> IsDigit(u[i]) || (u[i] == '_' && i + 1 < |u| && IsDigit(u[i + 1]))
  }

  /** The value of a digit run, underscores skipped. */
  function DigitsValue(u: string): (n: nat)
    decreases |u|
  {
    if u == [] then 0
    else if u[|u| - 1] == '_' then DigitsValue(u[..|u| - 1])
    else DigitsValue(u[..|u| - 1]) * 10 + DigitValue(u[|u| - 1])
  }

  function DigitValue(c: char): nat {
    if IsDigit(c) then (c as int - '0' as int) as nat else 0
  }

  /** `int(s)` in base 10: surrounding whitespace, an optional sign, then
      digits with single underscores between them; None where such a string
      is malformed. Python's limit on the number of digits `int` converts
      is not modelled. */
  function PyInt(s: string): (r: Option<int>)
    ensures r.Some? ==> Strip(s) != []
  {
    var t := Strip(s);
    if t == [] then None
    else
      var negative := t[0] == '-';
      var digits := if t[0] == '-' || t[0] == '+' then t[1..] else t;
      var magnitude: int := DigitsValue(digits);
      if !WellFormedDigits(digits) then None
      else if negative then Some(-magnitude)
      else Some(magnitude)
  }

  /** `parse_val(r)`: 0 for `None`, for an entry without `result`, for a
      falsy result, and for a result `int` rejects; otherwise its value. */
  function ParseVal(e: Entry): (n: int)
    ensures e == ENone || e == EOther || e == EObject(None) || e == EObject(Some(RNull)) ==> n == 0
    ensures e == EObject(Some(RStr(""))) ==> n == 0
    ensures forall s :: e == EObject(Some(RStr(s))) ==> n == PyInt(s).GetOr(0)
    ensures forall i :: e == EObject(Some(RInt(i))) ==> n == i
  {
    match e
    case ENone => 0
    case EOther => 0
    case EObject(None) => 0
    case EObject(Some(v)) =>
      match v
      case RNull => 0
      case RInt(i) => i
      case RStr(s) => if s == "" then 0 else PyInt(s).GetOr(0)
  }

  /** The decimal spelling of a counter, as the store returns it. */
  function DecimalString(n: nat): (r: string)
    ensures r != [] && forall i :: 0 <= i < |r| ==> IsDigit(r[i])
    decreases n
  {
    if n < 10 then [DigitChar(n)] else DecimalString(n / 10) + [DigitChar(n % 10)]
  }

  function DigitChar(d: nat): (c: char)
    requires d < 10
    ensures IsDigit(c) && DigitValue(c) == d
  {
    ('0' as int + d) as char
  }

  lemma {:induction false} DecimalStringValue(n: nat)
    ensures DigitsValue(DecimalString(n)) == n
    decreases n
  {
    if n >= 10 {
      var r := DecimalString(n);
      assert r[..|r| - 1] == DecimalString(n / 10);
      DecimalStringValue(n / 10);
    }
  }

  /** A counter read back from the store parses to itself. */
  lemma ParseDecimalString(n: nat)
    ensures PyInt(DecimalString(n)) == Some(n)
    ensures ParseVal(EObject(Some(RStr(DecimalString(n))))) == n
  {
    var r := DecimalString(n);
    StripIdentity(r);
    assert WellFormedDigits(r);
    DecimalStringValue(n);
  }

  /** One space on each side of a trimmed text is stripped off again. */
  lemma StripPadded(x: string)
    requires x != [] && !IsSpace(x[0]) && !IsSpace(x[|x| - 1])
    ensures Strip(" " + x + " ") == x
  {
    var s := " " + x + " ";
    assert s[1..][0] == x[0];
    assert SpaceRun(s) == 1;
    var r := Strip(s);
    assert s[|x|] == x[|x| - 1];
    assert s[|x| + 1] == ' ';
    assert |r| == |x|;
    assert s[1..1 + |x|] == x;
  }

  /** A negative number and padding parse too. */
  lemma ParseSignedPadded(n: nat)
    ensures PyInt(" -" + DecimalString(n) + " ") == Some(-(n as int))
  {
    var r := DecimalString(n);
    var s := " -" + r + " ";
    DecimalStringWellFormed(n);
    NegativePadded(r);
    StripPadded("-" + r);
    assert Strip(s) == "-" + r;
    PyIntNegative(s, r);
    DecimalStringValue(n);
  }

  lemma DecimalStringWellFormed(n: nat)
    ensures WellFormedDigits(DecimalString(n))
  {
  }

  lemma NegativePadded(r: string)
    requires r != [] && !IsSpace(r[|r| - 1])
    ensures " -" + r + " " == " " + ("-" + r) + " "
    ensures !IsSpace(("-" + r)[0]) && !IsSpace(("-" + r)[|r|])
  {
  }

  lemma PyIntNegative(s: string, digits: string)
    requires Strip(s) == "-" + digits && WellFormedDigits(digits)
    ensures PyInt(s) == Some(-(DigitsValue(digits) as int))
  {
    assert ("-" + digits)[1..] == digits;
  }

  // ---------------------------------------------------------------------
  // Reducing the reply

  datatype Metric = NA | Count(n: int)

  const StatKeys: set<string> :=
    {"mobile_7d", "mobile_30d", "mobile_total", "web_7d", "web_30d", "web_total"}

  /** Python's `s[lo:hi]` for 0 <= lo <= hi: both ends clipped to the length. */
  function PySlice<T>(s: seq<T>, lo: nat, hi: nat): (r: seq<T>)
    requires lo <= hi
    ensures |r| == Min(hi, |s|) - Min(lo, |s|)
    ensures forall i :: 0 <= i < |r| ==> r[i] == s[lo + i]
  {
    s[Min(lo, |s|)..Min(hi, |s|)]
  }

  function Min(a: int, b: int): int {
    if a < b then a else b
  }

  function Sum(s: seq<int>): int
    decreases |s|
  {
    if s == [] then 0 else s[0] + Sum(s[1..])
  }

  function ParseAll(es: seq<Entry>): (r: seq<int>)
    ensures |r| == |es| && forall i :: 0 <= i < |es| ==> r[i] == ParseVal(es[i])
  {
    seq(|es|, i requires 0 <= i < |es| => ParseVal(es[i]))
  }

  /** The thirty parsed daily values that start at `lo` in the reply. */
  function Daily(rs: seq<Entry>, lo: nat): (r: seq<int>)
    ensures |r| <= 30
  {
    ParseAll(PySlice(rs, lo, lo + 30))
  }

  /** The tail of `get_stats` from the reply on: `None` stands for a reply
      that is `None` or not a list. A falsy reply gives "N/A" six times; a
      reply of one entry raises IndexError at `results[1]`. */
  function ReduceStats(reply: Option<seq<Entry>>): (r: Result<map<string, Metric>>)
    ensures r.Err? <==> reply.Some? && |reply.value| == 1
    ensures r.Err? ==> r.error == IndexError
    ensures r.Ok? ==> r.value.Keys == StatKeys
    ensures reply.None? || reply == Some([]) ==> r.Ok? && forall k :: k in r.value ==> r.value[k] == NA
    ensures reply.Some? && |reply.value| >= 2 ==>
              r.Ok? && (forall k :: k in r.value ==> r.value[k].Count?)
              && r.value["web_total"] == Count(ParseVal(reply.value[0]))
              && r.value["mobile_total"] == Count(ParseVal(reply.value[1]))
              && r.value["web_7d"] == Count(Sum(PySlice(Daily(reply.value, 2), 0, 7)))
              && r.value["web_30d"] == Count(Sum(Daily(reply.value, 2)))
              && r.value["mobile_7d"] == Count(Sum(PySlice(Daily(reply.value, 32), 0, 7)))
              && r.value["mobile_30d"] == Count(Sum(Daily(reply.value, 32)))
  {
    match reply
    case None => Ok(map k | k in StatKeys :: NA)
    case Some(rs) =>
      if rs == [] then Ok(map k | k in StatKeys :: NA)
      else if |rs| < 2 then Err(IndexError)
      else
        var webDaily := Daily(rs, 2);
        var mobileDaily := Daily(rs, 32);
        Ok(map[
          "mobile_7d" := Count(Sum(PySlice(mobileDaily, 0, 7))),
          "mobile_30d" := Count(Sum(mobileDaily)),
          "mobile_total" := Count(ParseVal(rs[1])),
          "web_7d" := Count(Sum(PySlice(webDaily, 0, 7))),
          "web_30d" := Count(Sum(webDaily)),
          "web_total" := Count(ParseVal(rs[0]))
        ])
  }

  lemma {:induction false} SumSplit(s: seq<int>, k: nat)
    requires k <= |s|
    ensures Sum(s) == Sum(s[..k]) + Sum(s[k..])
    decreases k
  {
    if k > 0 {
      SumSplit(s[1..], k - 1);
      assert s[1..][..k - 1] == s[..k][1..];
      assert s[1..][k - 1..] == s[k..];
    } else {
      assert s[..0] == [] && s[0..] == s;
    }
  }

  /** A sum over up to 30 days is the sum over the first 7 plus the rest. */
  lemma SevenDaysFirst(daily: seq<int>)
    requires |daily| <= 30
    ensures Sum(daily) == Sum(PySlice(daily, 0, 7)) + Sum(PySlice(daily, 7, 30))
  {
    var k := Min(7, |daily|);
    SumSplit(daily, k);
    assert PySlice(daily, 0, 7) == daily[..k];
    assert PySlice(daily, 7, 30) == daily[k..];
  }

  /** The 30-day figure is the 7-day figure plus the older days. */
  lemma ThirtyDaysIncludeSevenDays(rs: seq<Entry>)
    requires |rs| >= 2
    ensures ReduceStats(Some(rs)).value["web_30d"].n
         == ReduceStats(Some(rs)).value["web_7d"].n + Sum(PySlice(Daily(rs, 2), 7, 30))
    ensures ReduceStats(Some(rs)).value["mobile_30d"].n
         == ReduceStats(Some(rs)).value["mobile_7d"].n + Sum(PySlice(Daily(rs, 32), 7, 30))
  {
    SevenDaysFirst(Daily(rs, 2));
    SevenDaysFirst(Daily(rs, 32));
  }

  // ---------------------------------------------------------------------
  // The counter store behind the endpoint

  /** The counters of the key-value store; a key never incremented is absent. */
  type Store = map<string, nat>

  /** The value INCR starts from and GET reads as 0. */
  function Counter(store: Store, key: string): nat {
    if key in store then store[key] else 0
  }

  /** How many of the commands increment `key`. */
  function IncrCount(cmds: seq<Command>, key: string): nat
    decreases |cmds|
  {
    if cmds == [] then 0 else (if cmds[0] == Incr(key) then 1 else 0) + IncrCount(cmds[1..], key)
  }

  /** The store after it runs a pipeline: each INCR adds one to its counter,
      each GET leaves the store as it is. */
  function Execute(store: Store, cmds: seq<Command>): (r: Store)
    ensures forall key :: Counter(r, key) == Counter(store, key) + IncrCount(cmds, key)
    decreases |cmds|
  {
    if cmds == [] then store
    else
      var next := match cmds[0]
        case Incr(key) => store[key := Counter(store, key) + 1]
        case Get(_) => store;
      Execute(next, cmds[1..])
  }

  lemma IncrCountFour(a: string, b: string, c: string, d: string, key: string)
    ensures IncrCount([Incr(a), Incr(b), Incr(c), Incr(d)], key)
         == (if key == a then 1 else 0) + (if key == b then 1 else 0)
          + (if key == c then 1 else 0) + (if key == d then 1 else 0)
  {
    var cmds := [Incr(a), Incr(b), Incr(c), Incr(d)];
    assert cmds[1..] == [Incr(b), Incr(c), Incr(d)];
    assert [Incr(b), Incr(c), Incr(d)][1..] == [Incr(c), Incr(d)];
    assert [Incr(c), Incr(d)][1..] == [Incr(d)];
    assert IncrCount([Incr(d)], key) == Indicator(key == d);
    assert IncrCount([Incr(c), Incr(d)], key) == Indicator(key == c) + Indicator(key == d);
    assert IncrCount([Incr(b), Incr(c), Incr(d)], key) == Indicator(key == b) + Indicator(key == c) + Indicator(key == d);
  }

  /** Two keys of one device type are equal exactly when their scopes are. */
  lemma SameDeviceKey(appKey: string, device: string, s: string, t: string)
    ensures VisitKey(appKey, device, s) == VisitKey(appKey, device, t) <==> s == t
  {
    var p := "visits:" + appKey + ":" + device + ":";
    assert VisitKey(appKey, device, s) == p + s && VisitKey(appKey, device, t) == p + t;
    assert (p + s)[|p|..] == s && (p + t)[|p|..] == t;
  }

  /** Keys of device types with different first letters never meet. */
  lemma DeviceKeysDiffer(appKey: string, a: string, b: string, s: string, t: string)
    requires a != [] && b != [] && a[0] != b[0]
    ensures VisitKey(appKey, a, s) != VisitKey(appKey, b, t)
  {
    var p := "visits:" + appKey + ":";
    assert VisitKey(appKey, a, s) == p + (a + ":" + s);
    assert VisitKey(appKey, b, t) == p + (b + ":" + t);
    assert (p + (a + ":" + s))[|p|] == a[0];
    assert (p + (b + ":" + t))[|p|] == b[0];
  }

  function Indicator(b: bool): nat {
    if b then 1 else 0
  }

  /** What one visit adds to the "web", "mobile" and "desktop" counters of
      each scope: "web" counts every visit, "mobile" only a mobile one and
      "desktop" every other one, each under "total" and under the day of
      the visit. */
  lemma VisitCounts(store: Store, ctx: VisitContext, scope: string)
    ensures var k := AppKey(ctx.appKeySecret);
            var after := Execute(store, VisitBatch(ctx));
            Counter(after, VisitKey(k, "web", scope))
              == Counter(store, VisitKey(k, "web", scope)) + Indicator(scope == "total") + Indicator(scope == ctx.today)
            && Counter(after, VisitKey(k, "mobile", scope))
              == Counter(store, VisitKey(k, "mobile", scope))
                 + Indicator(IsMobile(ctx.userAgent) && scope == "total")
                 + Indicator(IsMobile(ctx.userAgent) && scope == ctx.today)
            && Counter(after, VisitKey(k, "desktop", scope))
              == Counter(store, VisitKey(k, "desktop", scope))
                 + Indicator(!IsMobile(ctx.userAgent) && scope == "total")
                 + Indicator(!IsMobile(ctx.userAgent) && scope == ctx.today)
  {
    var k := AppKey(ctx.appKeySecret);
    var d := DeviceType(ctx.userAgent);
    var web, mobile := VisitKey(k, "web", scope), VisitKey(k, "mobile", scope);
    IncrCountFour(VisitKey(k, "web", "total"), VisitKey(k, "web", ctx.today),
                  VisitKey(k, d, "total"), VisitKey(k, d, ctx.today), web);
    IncrCountFour(VisitKey(k, "web", "total"), VisitKey(k, "web", ctx.today),
                  VisitKey(k, d, "total"), VisitKey(k, d, ctx.today), mobile);
    SameDeviceKey(k, "web", scope, "total");
    SameDeviceKey(k, "web", scope, ctx.today);
    SameDeviceKey(k, "mobile", scope, "total");
    SameDeviceKey(k, "mobile", scope, ctx.today);
    DeviceKeysDiffer(k, "web", d, scope, "total");
    DeviceKeysDiffer(k, "web", d, scope, ctx.today);
    DeviceKeysDiffer(k, "mobile", "web", scope, "total");
    DeviceKeysDiffer(k, "mobile", "web", scope, ctx.today);
    if d == "desktop" {
      DeviceKeysDiffer(k, "mobile", d, scope, "total");
      DeviceKeysDiffer(k, "mobile", d, scope, ctx.today);
    }
    VisitCountsDesktop(store, ctx, scope);
  }

  lemma VisitCountsDesktop(store: Store, ctx: VisitContext, scope: string)
    ensures var k := AppKey(ctx.appKeySecret);
            Counter(Execute(store, VisitBatch(ctx)), VisitKey(k, "desktop", scope))
              == Counter(store, VisitKey(k, "desktop", scope))
                 + Indicator(!IsMobile(ctx.userAgent) && scope == "total")
                 + Indicator(!IsMobile(ctx.userAgent) && scope == ctx.today)
  {
    var k := AppKey(ctx.appKeySecret);
    var d := DeviceType(ctx.userAgent);
    var desktop := VisitKey(k, "desktop", scope);
    IncrCountFour(VisitKey(k, "web", "total"), VisitKey(k, "web", ctx.today),
                  VisitKey(k, d, "total"), VisitKey(k, d, ctx.today), desktop);
    SameDeviceKey(k, "desktop", scope, "total");
    SameDeviceKey(k, "desktop", scope, ctx.today);
    DeviceKeysDiffer(k, "desktop", "web", scope, "total");
    DeviceKeysDiffer(k, "desktop", "web", scope, ctx.today);
    if d == "mobile" {
      DeviceKeysDiffer(k, "desktop", d, scope, "total");
      DeviceKeysDiffer(k, "desktop", d, scope, ctx.today);
    }
  }

  /** Under `appKey`, every "web" counter is at least the "mobile" counter
      of the same scope; the empty store is such a store. */
  ghost predicate WebCoversMobile(store: Store, appKey: string) {
    forall scope :: Counter(store, VisitKey(appKey, "web", scope)) >= Counter(store, VisitKey(appKey, "mobile", scope))
  }

  /** A visit keeps "web" at or above "mobile", scope by scope. */
  lemma VisitKeepsWebCoversMobile(store: Store, ctx: VisitContext)
    requires WebCoversMobile(store, AppKey(ctx.appKeySecret))
    ensures WebCoversMobile(Execute(store, VisitBatch(ctx)), AppKey(ctx.appKeySecret))
  {
    forall scope {
      VisitCounts(store, ctx, scope);
    }
  }

  /** What the store answers to a GET: the counter as a decimal string, or
      null for a key never incremented. */
  function Read(store: Store, key: string): (e: Entry)
    ensures ParseVal(e) == Counter(store, key)
  {
    if key in store then
      ParseDecimalString(store[key]);
      EObject(Some(RStr(DecimalString(store[key]))))
    else EObject(Some(RNull))
  }

  /** The reply of the store to a pipeline of reads. */
  function ReadReply(store: Store, cmds: seq<Command>): (r: seq<Entry>)
    ensures |r| == |cmds| && forall i :: 0 <= i < |cmds| ==> ParseVal(r[i]) == Counter(store, cmds[i].key)
  {
    seq(|cmds|, i requires 0 <= i < |cmds| => Read(store, cmds[i].key))
  }

  /** The counters of one device type over a list of days. */
  function DayCounts(store: Store, appKey: string, device: string, days: seq<string>): (r: seq<int>)
    ensures |r| == |days| && forall i :: 0 <= i < |days| ==> r[i] == Counter(store, VisitKey(appKey, device, days[i]))
  {
    seq(|days|, i requires 0 <= i < |days| => Counter(store, VisitKey(appKey, device, days[i])) as int)
  }

  /** Read from a store, the six metrics are its all-time counters and the
      sums of its day counters over the first 7 and over all 30 days. */
  lemma StatsOfStore(store: Store, appKey: string, days: seq<string>)
    requires |days| == 30
    ensures var r := ReduceStats(Some(ReadReply(store, StatsLayout(appKey, days))));
            r.Ok?
            && r.value["web_total"] == Count(Counter(store, VisitKey(appKey, "web", "total")))
            && r.value["mobile_total"] == Count(Counter(store, VisitKey(appKey, "mobile", "total")))
            && r.value["web_7d"] == Count(Sum(DayCounts(store, appKey, "web", days[..7])))
            && r.value["web_30d"] == Count(Sum(DayCounts(store, appKey, "web", days)))
            && r.value["mobile_7d"] == Count(Sum(DayCounts(store, appKey, "mobile", days[..7])))
            && r.value["mobile_30d"] == Count(Sum(DayCounts(store, appKey, "mobile", days)))
  {
    StatsLayoutIndices(appKey, days);
    var reply := ReadReply(store, StatsLayout(appKey, days));
    assert Daily(reply, 2) == DayCounts(store, appKey, "web", days);
    assert Daily(reply, 32) == DayCounts(store, appKey, "mobile", days);
    assert PySlice(Daily(reply, 2), 0, 7) == DayCounts(store, appKey, "web", days[..7]);
    assert PySlice(Daily(reply, 32), 0, 7) == DayCounts(store, appKey, "mobile", days[..7]);
  }

  lemma {:induction false} SumMonotone(a: seq<int>, b: seq<int>)
    requires |a| == |b| && forall i :: 0 <= i < |a| ==> a[i] >= b[i]
    ensures Sum(a) >= Sum(b)
    decreases |a|
  {
    if a != [] {
      SumMonotone(a[1..], b[1..]);
    }
  }

  /** On a store that only visits have changed, the panel never shows more
      mobile than web visits, for any of the three periods. */
  lemma StatsShowWebCoversMobile(store: Store, appKey: string, days: seq<string>)
    requires |days| == 30 && WebCoversMobile(store, appKey)
    ensures var r := ReduceStats(Some(ReadReply(store, StatsLayout(appKey, days))));
            r.Ok?
            && r.value["web_total"].n >= r.value["mobile_total"].n
            && r.value["web_7d"].n >= r.value["mobile_7d"].n
            && r.value["web_30d"].n >= r.value["mobile_30d"].n
  {
    StatsOfStore(store, appKey, days);
    WebCoversMobileAt(store, appKey, "total");
    WebDaysCoverMobile(store, appKey, days[..7]);
    WebDaysCoverMobile(store, appKey, days);
  }

  lemma WebCoversMobileAt(store: Store, appKey: string, scope: string)
    requires WebCoversMobile(store, appKey)
    ensures Counter(store, VisitKey(appKey, "web", scope)) >= Counter(store, VisitKey(appKey, "mobile", scope))
  {
  }

  lemma WebDaysCoverMobile(store: Store, appKey: string, days: seq<string>)
    requires WebCoversMobile(store, appKey)
    ensures Sum(DayCounts(store, appKey, "web", days)) >= Sum(DayCounts(store, appKey, "mobile", days))
  {
    SumMonotone(DayCounts(store, appKey, "web", days), DayCounts(store, appKey, "mobile", days));
  }

  /** `get_stats()`: build the reads, send them to `endpoint`, reduce the
      reply. `days` is the date list from today backwards. */
  method GetStats(appKeySecret: Option<string>, days: seq<string>, endpoint: seq<Command> -> Option<seq<Entry>>)
    returns (stats: Result<map<string, Metric>>)
    requires |days| == 30
    ensures stats == ReduceStats(endpoint(StatsLayout(AppKey(appKeySecret), days)))
    ensures stats.Ok? ==> stats.value.Keys == StatKeys
  {
    var cmds := BuildStatsCommands(AppKey(appKeySecret), days);
    var results := endpoint(cmds);
    stats := ReduceStats(results);
  }
}
