/** The runner card: whether a runner counts as online, and which of its labels are shown. */
module RunnerCard {
  import opened Base
  import opened Json
  import opened Schema

  // ----- Liveness -----

  /** `ttlSeconds || 60`: a missing or zero ttl reads as 60 seconds. */
  function EffectiveTtl(ttl: Option<int>): (t: int)
    ensures t != 0
    ensures ttl.None? || ttl == Some(0) ==> t == DefaultTtl
    ensures ttl.Some? && ttl.value != 0 ==> t == ttl.value
  {
    if ttl.None? || ttl.value == 0 then DefaultTtl else ttl.value
  }

  /** A runner is online while it was last seen less than two ttls ago; timestamps
      are milliseconds. */
  predicate IsOnline(lastSeen: int, now: int, ttl: Option<int>) {
    lastSeen > now - EffectiveTtl(ttl) * 1000 * 2
  }

  /** The liveness of a stored runner row. */
  predicate RunnerOnline(r: Runner, now: int) {
    IsOnline(r.lastSeenAt, now, r.ttlSeconds)
  }

  /** Online exactly when strictly less than `2 * ttl` seconds have passed since the
      runner was last seen. */
  lemma OnlineWindow(lastSeen: int, now: int, ttl: Option<int>)
    ensures IsOnline(lastSeen, now, ttl) <==> now - lastSeen < 2000 * EffectiveTtl(ttl)
  {
  }

  /** With the default ttl of 60 s: seen 90 s ago is online, seen 120 s or 130 s ago is offline. */
  lemma OnlineExamples(now: int)
    ensures IsOnline(now - 90_000, now, Some(60))
    ensures !IsOnline(now - 120_000, now, Some(60))
    ensures !IsOnline(now - 130_000, now, Some(60))
    ensures IsOnline(now - 90_000, now, None) && IsOnline(now - 90_000, now, Some(0))
  {
  }

  /** A missing and a zero ttl both behave as the default ttl. */
  lemma TtlDefaulted(lastSeen: int, now: int)
    ensures IsOnline(lastSeen, now, None) == IsOnline(lastSeen, now, Some(DefaultTtl))
    ensures IsOnline(lastSeen, now, Some(0)) == IsOnline(lastSeen, now, Some(DefaultTtl))
  {
  }

  /** A later `lastSeenAt` never turns online into offline. */
  lemma OnlineLaterSeen(l1: int, l2: int, now: int, ttl: Option<int>)
    requires l1 <= l2 && IsOnline(l1, now, ttl)
    ensures IsOnline(l2, now, ttl)
  {
  }

  /** A later `now` never turns offline into online. */
  lemma OfflineLaterNow(lastSeen: int, n1: int, n2: int, ttl: Option<int>)
    requires n1 <= n2 && !IsOnline(lastSeen, n1, ttl)
    ensures !IsOnline(lastSeen, n2, ttl)
  {
  }

  /** Among positive ttls, a larger one never turns online into offline. */
  lemma OnlineLargerTtl(lastSeen: int, now: int, t1: int, t2: int)
    requires 0 < t1 <= t2 && IsOnline(lastSeen, now, Some(t1))
    ensures IsOnline(lastSeen, now, Some(t2))
  {
    assert t1 * 1000 * 2 <= t2 * 1000 * 2;
  }

  /** Because a ttl of 0 reads as 60, raising a ttl from 0 to 1 can turn a runner offline. */
  lemma ZeroTtlNotMonotone(now: int)
    ensures IsOnline(now - 100_000, now, Some(0)) && !IsOnline(now - 100_000, now, Some(1))
  {
  }

  // ----- Label chips -----

  /** One `key=value` chip. */
  datatype Chip = Chip(key: string, value: Json)

  /** `Object.entries` of the labels value: the members of an object, one entry per
      character (keyed by its index) of a string, nothing for other values. */
  function LabelEntries(labels: Option<Json>): (r: seq<Chip>)
    ensures labels.Some? && labels.value.JObj? ==> |r| == |labels.value.members|
    ensures labels.Some? && labels.value.JStr? ==> |r| == |labels.value.s|
    ensures labels.None? || labels.value.JNull? || labels.value.JBool? || labels.value.JNum? ==> r == []
  {
    match labels
    case Some(JObj(ms)) => seq(|ms|, i requires 0 <= i < |ms| => Chip(ms[i].key, ms[i].value))
    case Some(JStr(s)) => seq(|s|, i requires 0 <= i < |s| => Chip(NatText(i), JStr([s[i]])))
    case _ => []
  }

  /** The chips a card shows and the count its overflow chip reads, if it has one. */
  datatype ChipRow = ChipRow(shown: seq<Chip>, more: Option<int>)

  const MaxChips := 2

  /** The first two entries become chips; an overflow chip counts the rest. */
  function LabelChips(labels: Option<Json>): (r: ChipRow)
    ensures |r.shown| == if |LabelEntries(labels)| < MaxChips then |LabelEntries(labels)| else MaxChips
    ensures r.shown == LabelEntries(labels)[..|r.shown|]
    ensures r.more.Some? <==> |LabelEntries(labels)| > MaxChips
    ensures |r.shown| + r.more.GetOr(0) == |LabelEntries(labels)|
  {
    var entries := LabelEntries(labels);
    ChipRow(Take(entries, MaxChips), if |entries| > MaxChips then Some(|entries| - MaxChips) else None)
  }

  /** A runner whose labels are the text "{}" (as the startup seed stores them) shows
      the two characters of that text as chips. */
  lemma TextLabelsChips()
    ensures LabelChips(Some(JStr("{}"))) == ChipRow([Chip("0", JStr("{")), Chip("1", JStr("}"))], None)
  {
    assert NatText(0) == "0" && NatText(1) == "1";
    var entries := LabelEntries(Some(JStr("{}")));
    assert entries == [Chip("0", JStr("{")), Chip("1", JStr("}"))];
  }

  /** An empty labels object shows no chip. */
  lemma EmptyObjectChips()
    ensures LabelChips(Some(JObj([]))) == ChipRow([], None)
  {
  }
}
