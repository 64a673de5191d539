/** The cached GitHub client: what GitHub says about one repository - its latest release, or whether it exists - read
    through a cache that expires and fails.

    Calls run one at a time; GitHub's answer may change and time may pass in the middle of a call. Every question about
    every repository has a cache key of its own, so one question about one repository is enough. */
module CachedReads {
  import opened Contracts

  const RELEASE_TTL := 300   // seconds
  const EXISTS_TTL := 60

  /** GitHub's answer from second `since` on: the latest tag, or whether the repository exists. */
  datatype Version<V> = Version(value: V, since: nat)

  /** What the cache holds: which answer, when GitHub was asked and when the entry was written. */
  datatype Entry = Entry(position: nat, fetched: nat, stored: nat)

  /** A call between GitHub's answer and the cache write. */
  datatype Pending = Pending(position: nat, fetched: nat)

  /** A value handed to a caller at second `at`: GitHub was asked at `fetched` and the entry written at `stored`. */
  datatype Read = Read(position: nat, fetched: nat, stored: nat, at: nat)

  /** `ttl` is the time entries live, counted from the write. */
  datatype State<V> = State(
    ttl: nat, now: nat, timeline: seq<Version<V>>, cache: Option<Entry>, pending: Option<Pending>, handed: seq<Read>)

  function Initial<V>(ttl: nat): State<V> {
    State(ttl, 0, [], None, None, [])
  }

  datatype Step<V> =
    | Tick(seconds: nat)
    | Publish(value: V)              // GitHub's answer changes
    | Evict                          // the cache loses the entry
    | Hit                            // the cache answers, the call returns
    | Ask                            // the cache has nothing or fails; GitHub answers
    | Store                          // the cache write succeeds, the call returns the answer
    | StoreFails(written: bool)      // the cache write fails, the call returns an error

  predicate Enabled<V>(s: State<V>, step: Step<V>) {
    match step
    case Hit => s.pending.None? && s.cache.Some? && s.now < s.cache.value.stored + s.ttl
    case Ask => s.pending.None? && |s.timeline| > 0
    case Store => s.pending.Some?
    case StoreFails(_) => s.pending.Some?
    case _ => true
  }

  function Next<V>(s: State<V>, step: Step<V>): State<V>
    requires Enabled(s, step)
  {
    match step
    case Tick(seconds) => s.(now := s.now + seconds)
    case Publish(value) => s.(timeline := s.timeline + [Version(value, s.now)])
    case Evict => s.(cache := None)
    case Hit =>
      var e := s.cache.value;
      s.(handed := s.handed + [Read(e.position, e.fetched, e.stored, s.now)])
    case Ask => s.(pending := Some(Pending(|s.timeline| - 1, s.now)))
    case Store =>
      var p := s.pending.value;
      s.(pending := None, cache := Some(Entry(p.position, p.fetched, s.now)),
         handed := s.handed + [Read(p.position, p.fetched, s.now, s.now)])
    case StoreFails(written) =>
      var p := s.pending.value;
      s.(pending := None, cache := if written then Some(Entry(p.position, p.fetched, s.now)) else s.cache)
  }

  ghost predicate Run<V>(s: State<V>, steps: seq<Step<V>>, t: State<V>)
    decreases |steps|
  {
    if steps == [] then t == s
    else Enabled(s, steps[0]) && Run(Next(s, steps[0]), steps[1..], t)
  }

  lemma First<V>(s: State<V>, step: Step<V>, rest: seq<Step<V>>, t: State<V>)
    requires Enabled(s, step) && Run(Next(s, step), rest, t)
    ensures Run(s, [step] + rest, t)
  {
    assert ([step] + rest)[1..] == rest;
  }

  /** Version number `position` was GitHub's answer at second `moment`. */
  predicate WasLatest<V>(timeline: seq<Version<V>>, position: nat, moment: nat) {
    && position < |timeline| && timeline[position].since <= moment
    && (position + 1 < |timeline| ==> moment <= timeline[position + 1].since)
  }

  /** The position last handed out, or -1. */
  function Last<V>(s: State<V>): int {
    if s.handed == [] then -1 else s.handed[|s.handed| - 1].position
  }

  ghost predicate Monotone(handed: seq<Read>) {
    forall i, j :: 0 <= i < j < |handed| ==> handed[i].position <= handed[j].position
  }

  ghost predicate Fresh<V>(s: State<V>, r: Read) {
    && WasLatest(s.timeline, r.position, r.fetched)
    && r.fetched <= r.stored <= r.at < r.stored + s.ttl && r.at <= s.now
  }

  ghost predicate Inv<V>(s: State<V>) {
    && s.ttl > 0
    && (forall i :: 0 <= i < |s.timeline| ==> s.timeline[i].since <= s.now)
    && Monotone(s.handed) && Last(s) < |s.timeline|
    && (forall r :: r in s.handed ==> Fresh(s, r))
    && (s.cache.Some? ==>
          var e := s.cache.value;
          Last(s) <= e.position && WasLatest(s.timeline, e.position, e.fetched) && e.fetched <= e.stored <= s.now)
    && (s.pending.Some? ==>
          var p := s.pending.value;
          && Last(s) <= p.position && (s.cache.Some? ==> s.cache.value.position <= p.position)
          && WasLatest(s.timeline, p.position, p.fetched) && p.fetched <= s.now)
  }

  lemma StepKeeps<V>(s: State<V>, step: Step<V>)
    requires Inv(s) && Enabled(s, step)
    ensures Inv(Next(s, step)) && Next(s, step).ttl == s.ttl
  {
    var t := Next(s, step);
    forall r | r in t.handed ensures Fresh(t, r) {
      if r in s.handed { assert Fresh(s, r); }
    }
  }

  lemma {:induction false} RunKeeps<V>(s: State<V>, steps: seq<Step<V>>, t: State<V>)
    requires Inv(s) && Run(s, steps, t)
    ensures Inv(t) && t.ttl == s.ttl
    decreases |steps|
  {
    if steps != [] {
      StepKeeps(s, steps[0]);
      RunKeeps(Next(s, steps[0]), steps[1..], t);
    }
  }

  /** Cached reads are monotone: in every run, whichever cache reads and writes fail, successive values never go back in
      the history of GitHub's answers. */
  lemma ReadsNeverGoBack<V>(ttl: nat, steps: seq<Step<V>>, s: State<V>)
    requires ttl > 0 && Run(Initial(ttl), steps, s)
    ensures Monotone(s.handed)
  {
    RunKeeps(Initial(ttl), steps, s);
  }

  /** And every value was GitHub's answer less than the time to live, plus the time the call that fetched it took,
      before it was handed out. */
  lemma ReadsAreFresh<V>(ttl: nat, steps: seq<Step<V>>, s: State<V>, r: Read)
    requires ttl > 0 && Run(Initial(ttl), steps, s) && r in s.handed
    ensures WasLatest(s.timeline, r.position, r.fetched)
    ensures r.fetched <= r.stored && r.fetched <= r.at < r.fetched + ttl + (r.stored - r.fetched)
  {
    RunKeeps(Initial(ttl), steps, s);
    assert Fresh(s, r);
  }

  /** The release was GitHub's answer at some moment of the five minutes before it was handed out. */
  ghost predicate Recent(timeline: seq<Version<Tag>>, r: Read) {
    exists moment: nat :: moment <= r.at < moment + 300 && WasLatest(timeline, r.position, moment)
  }

  /** No run hands out anything older, if the call that fetched it took `delay` seconds. */
  ghost predicate AlwaysRecent(delay: nat) {
    forall steps, s, r ::
      Run(Initial<Tag>(RELEASE_TTL), steps, s) && r in s.handed && r.stored == r.fetched + delay ==>
        Recent(s.timeline, r)
  }

  /** The five minutes count from the write, not from the answer, so the time the call takes cannot be left out: after
      any call that took `delay` > 0 seconds a value can be handed out that was GitHub's answer at no moment of the
      last five minutes. */
  lemma SlowCallsServeOlderAnswers(delay: nat) returns (steps: seq<Step<Tag>>, s: State<Tag>, r: Read)
    requires delay > 0
    ensures Run(Initial(RELEASE_TTL), steps, s) && r in s.handed && r.stored - r.fetched == delay
    ensures !Recent(s.timeline, r)
  {
    var published := State(RELEASE_TTL, 0, [Version("v1", 0)], None, None, []);
    var asked := published.(pending := Some(Pending(0, 0)));
    var waited := asked.(timeline := [Version("v1", 0), Version("v2", 0)], now := delay);
    var cached := waited.(pending := None, cache := Some(Entry(0, 0, delay)), handed := [Read(0, 0, delay, delay)]);
    var late := cached.(now := delay + RELEASE_TTL - 1);
    r := Read(0, 0, delay, late.now);
    s := late.(handed := cached.handed + [r]);
    First(late, Hit, [], s);
    First(cached, Tick(RELEASE_TTL - 1), [Hit] + [], s);
    steps := [Tick(RELEASE_TTL - 1)] + ([Hit] + []);
    First(waited, Store, steps, s);
    First(waited.(now := 0), Tick(delay), [Store] + steps, s);
    assert Next(asked, Publish("v2")) == waited.(now := 0);
    First(asked, Publish("v2"), [Tick(delay)] + ([Store] + steps), s);
    steps := [Publish("v2")] + ([Tick(delay)] + ([Store] + steps));
    First(published, Ask, steps, s);
    assert Next(Initial(RELEASE_TTL), Publish("v1")) == published;
    First(Initial(RELEASE_TTL), Publish("v1"), [Ask] + steps, s);
    steps := [Publish("v1")] + ([Ask] + steps);
  }

  /** "GitHub's answer at some moment of the last five minutes" holds of every release handed out exactly for calls that
      write the cache in the second they asked. */
  lemma FiveMinutesExactlyWhenInstant(delay: nat)
    ensures AlwaysRecent(delay) <==> delay == 0
  {
    if delay == 0 {
      forall steps, s, r
        | Run(Initial<Tag>(RELEASE_TTL), steps, s) && r in s.handed && r.stored == r.fetched + delay
        ensures Recent(s.timeline, r)
      {
        ReadsAreFresh(RELEASE_TTL, steps, s, r);
      }
    } else {
      var steps, s, r := SlowCallsServeOlderAnswers(delay);
    }
  }

  // ----- what the failed write protects -----

  /** Were a failed write to return GitHub's answer instead of an error, reads could go back: from any state with an
      older live entry, the answer followed by a hit on that entry would. */
  lemma ReturningOnFailureWouldGoBack<V>(s: State<V>)
    requires Inv(s) && s.pending.Some? && s.cache.Some? && s.now < s.cache.value.stored + s.ttl
    requires s.cache.value.position < s.pending.value.position
    ensures var p := s.pending.value;
      var lenient := Next(s, StoreFails(false)).(handed := s.handed + [Read(p.position, p.fetched, s.now, s.now)]);
      Enabled(lenient, Hit) && !Monotone(Next(lenient, Hit).handed)
  {
    var p := s.pending.value;
    var lenient := Next(s, StoreFails(false)).(handed := s.handed + [Read(p.position, p.fetched, s.now, s.now)]);
    var handed := Next(lenient, Hit).handed;
    assert handed[|s.handed|].position > handed[|s.handed| + 1].position;
  }

  // ----- the client -----

  /** A cached value and the second it stops being valid. */
  datatype Cached<V> = Cached(value: V, expires: nat)

  /** The cache as the client sees it; a failing write may or may not have been carried out. */
  class Cache<V> {
    var entries: map<string, Cached<V>>

    constructor ()
      ensures entries == map[]
    {
      entries := map[];
    }

    method Get(key: string, now: nat, ok: bool) returns (value: Option<V>)
      ensures value ==
        if ok && key in entries && now < entries[key].expires then Some(entries[key].value) else None
    {
      if ok && key in entries && now < entries[key].expires { return Some(entries[key].value); }
      return None;
    }

    method Set(key: string, value: V, ttl: nat, now: nat, ok: bool, written: bool) returns (done: bool)
      modifies this
      ensures done == ok
      ensures entries == if ok || written then old(entries)[key := Cached(value, now + ttl)] else old(entries)
    {
      done := ok;
      if ok || written { entries := entries[key := Cached(value, now + ttl)]; }
    }
  }

  /** What the environment does to one call: does the cache answer, what does GitHub answer (None is an error), how
      long does that take, does the write succeed, and if not, was it carried out all the same. */
  datatype World<V> = World(getOk: bool, answer: Option<V>, delay: nat, setOk: bool, written: bool)

  type Entries = map<string, Cached<string>>

  predicate Served<V>(entries: map<string, Cached<V>>, key: string, now: nat, w: World<V>) {
    w.getOk && key in entries && now < entries[key].expires
  }

  /** What one call returns. */
  function Answer<V>(entries: map<string, Cached<V>>, key: string, now: nat, w: World<V>): Option<V> {
    if Served(entries, key, now, w) then Some(entries[key].value) else if w.setOk then w.answer else None
  }

  /** What one call leaves in the cache. */
  function After<V>(entries: map<string, Cached<V>>, key: string, ttl: nat, now: nat, w: World<V>)
      : map<string, Cached<V>> {
    if Served(entries, key, now, w) || w.answer.None? || !(w.setOk || w.written) then entries
    else entries[key := Cached(w.answer.value, now + w.delay + ttl)]
  }

  /** The entries read as booleans, each kept as the word "true" or "false". */
  function Flags(entries: Entries): map<string, Cached<bool>> {
    map key | key in entries :: Cached(entries[key].value == "true", entries[key].expires)
  }

  class CachedGitHubClient {
    const cache: Cache<string>

    constructor (cache: Cache<string>)
      ensures this.cache == cache
    {
      this.cache := cache;
    }

    /** A value comes from a live entry, or from GitHub with a successful write; a failed write returns an error,
        whatever GitHub said. So whatever is returned is what the cache holds afterwards. */
    method GetLatestRelease(name: Name, now: nat, w: World<Tag>) returns (tag: Option<Tag>)
      modifies cache
      ensures tag == Answer(old(cache.entries), "release:" + name, now, w)
      ensures cache.entries == After(old(cache.entries), "release:" + name, 300, now, w)
      ensures tag.Some? ==> "release:" + name in cache.entries && cache.entries["release:" + name].value == tag.value
      ensures
        var before, key := old(cache.entries), "release:" + name;
        !(w.getOk && key in before && now < before[key].expires) && w.setOk ==> tag == w.answer
    {
      var key := "release:" + name;
      var data := cache.Get(key, now, w.getOk);
      if data.Some? { return data; }
      if w.answer.None? { return None; }
      var done := cache.Set(key, w.answer.value, RELEASE_TTL, now + w.delay, w.setOk, w.written);
      if !done { return None; }
      return w.answer;
    }

    /** The same, for a boolean kept as a word for one minute. Without a live entry and with a successful write the
        result is GitHub's own answer. */
    method RepoExists(name: Name, now: nat, w: World<bool>) returns (exists_: Option<bool>)
      modifies cache
      ensures exists_ == Answer(Flags(old(cache.entries)), "repo_exists:" + name, now, w)
      ensures Flags(cache.entries) == After(Flags(old(cache.entries)), "repo_exists:" + name, 60, now, w)
      ensures
        var before, key := old(cache.entries), "repo_exists:" + name;
        if w.getOk && key in before && now < before[key].expires then
          exists_ == Some(before[key].value == "true") && cache.entries == before
        else if w.answer.Some? && (w.setOk || w.written) then
          && exists_ == (if w.setOk then w.answer else None)
          && cache.entries ==
               before[key := Cached(if w.answer.value then "true" else "false", now + w.delay + 60)]
        else
          exists_ == None && cache.entries == before
    {
      var key := "repo_exists:" + name;
      var data := cache.Get(key, now, w.getOk);
      if data.Some? { return Some(data.value == "true"); }
      if w.answer.None? { return None; }
      var val := "false";
      if w.answer.value { val := "true"; }
      var done := cache.Set(key, val, EXISTS_TTL, now + w.delay, w.setOk, w.written);
      if !done { return None; }
      return w.answer;
    }
  }

  // ----- the client's calls are runs of the machine -----

  ghost predicate CacheShows<V>(s: State<V>, entries: map<string, Cached<V>>, key: string) {
    && (s.cache.Some? <==> key in entries)
    && (s.cache.Some? ==>
          && s.cache.value.position < |s.timeline|
          && entries[key] == Cached(s.timeline[s.cache.value.position].value, s.cache.value.stored + s.ttl))
  }

  /** Time passes and GitHub's answer changes. */
  ghost predicate Meanwhile<V>(steps: seq<Step<V>>) {
    forall step :: step in steps ==> step.Tick? || step.Publish?
  }

  function Elapsed<V>(steps: seq<Step<V>>): nat
    decreases |steps|
  {
    if steps == [] then 0 else (if steps[0].Tick? then steps[0].seconds else 0) + Elapsed(steps[1..])
  }

  /** Where such steps lead. */
  ghost function Waited<V>(s: State<V>, steps: seq<Step<V>>): (t: State<V>)
    requires Meanwhile(steps)
    ensures t == s.(now := s.now + Elapsed(steps), timeline := t.timeline) && s.timeline <= t.timeline
    ensures Run(s, steps, t)
    decreases |steps|
  {
    if steps == [] then s
    else
      assert steps[0] in steps && forall step :: step in steps[1..] ==> step in steps;
      Waited(Next(s, steps[0]), steps[1..])
  }

  lemma {:induction false} Append<V>(s: State<V>, steps: seq<Step<V>>, t: State<V>, step: Step<V>)
    requires Run(s, steps, t) && Enabled(t, step)
    ensures Run(s, steps + [step], Next(t, step))
    decreases |steps|
  {
    if steps == [] {
      assert ([] + [step])[1..] == [];
    } else {
      Append(Next(s, steps[0]), steps[1..], t, step);
      assert (steps + [step])[1..] == steps[1..] + [step];
    }
  }

  /** GitHub's side of a call made in `s`: it answers what is latest then or reports an error, and meanwhile `during`
      goes on. */
  ghost predicate Truthful<V>(s: State<V>, w: World<V>, during: seq<Step<V>>) {
    && Meanwhile(during) && Elapsed(during) == w.delay
    && (w.answer.Some? ==> |s.timeline| > 0 && w.answer.value == s.timeline[|s.timeline| - 1].value)
  }

  /** Between two calls. */
  ghost predicate Idle<V>(s: State<V>, entries: map<string, Cached<V>>, key: string) {
    Inv(s) && s.pending.None? && CacheShows(s, entries, key)
  }

  /** The state after one call. */
  ghost function Called<V>(s: State<V>, entries: map<string, Cached<V>>, key: string, w: World<V>, during: seq<Step<V>>)
      : State<V>
    requires Idle(s, entries, key) && Truthful(s, w, during)
  {
    if Served(entries, key, s.now, w) then Next(s, Hit)
    else if w.answer.None? then s
    else Next(Waited(Next(s, Ask), during), if w.setOk then Store else StoreFails(w.written))
  }

  lemma AskingRuns<V>(s: State<V>, during: seq<Step<V>>, last: Step<V>)
    requires s.pending.None? && |s.timeline| > 0 && Meanwhile(during) && (last.Store? || last.StoreFails?)
    ensures Run(s, [Ask] + (during + [last]), Next(Waited(Next(s, Ask), during), last))
  {
    var waited := Waited(Next(s, Ask), during);
    Append(Next(s, Ask), during, waited, last);
    First(s, Ask, during + [last], Next(waited, last));
  }

  lemma CallRuns<V>(s: State<V>, entries: map<string, Cached<V>>, key: string, w: World<V>, during: seq<Step<V>>)
      returns (steps: seq<Step<V>>)
    requires Idle(s, entries, key) && Truthful(s, w, during)
    ensures Run(s, steps, Called(s, entries, key, w, during))
  {
    if Served(entries, key, s.now, w) {
      steps := [Hit];
      assert [Hit] + [] == steps;
      First(s, Hit, [], Next(s, Hit));
    } else if w.answer.None? {
      steps := [];
    } else {
      var last := if w.setOk then Store else StoreFails(w.written);
      AskingRuns(s, during, last);
      steps := [Ask] + (during + [last]);
    }
  }

  lemma CallAnswers<V>(s: State<V>, entries: map<string, Cached<V>>, key: string, w: World<V>, during: seq<Step<V>>)
    requires Idle(s, entries, key) && Truthful(s, w, during)
    ensures
      var t, answer := Called(s, entries, key, w, during), Answer(entries, key, s.now, w);
      && t.pending.None? && s.timeline <= t.timeline && CacheShows(t, After(entries, key, s.ttl, s.now, w), key)
      && if answer.None? then t.handed == s.handed
         else |t.handed| == |s.handed| + 1 && t.handed[..|s.handed|] == s.handed
              && 0 <= Last(t) < |t.timeline| && t.timeline[Last(t)].value == answer.value
  {
    hide Run;
    if !Served(entries, key, s.now, w) && w.answer.Some? { AnswerIsStored(s, entries, key, w, during); }
  }

  lemma AnswerIsStored<V>(s: State<V>, entries: map<string, Cached<V>>, key: string, w: World<V>, during: seq<Step<V>>)
    requires Idle(s, entries, key) && Truthful(s, w, during) && !Served(entries, key, s.now, w) && w.answer.Some?
    ensures
      var t := Called(s, entries, key, w, during);
      && t.pending.None? && s.timeline <= t.timeline && CacheShows(t, After(entries, key, s.ttl, s.now, w), key)
      && t.handed == s.handed + if w.setOk then [Read(|s.timeline| - 1, s.now, t.now, t.now)] else []
  {
    hide Run, Inv;
  }

  /** One call, with `during` going on between GitHub's answer and the cache write, is a run of the machine: it hands
      out exactly what the call returns and leaves the cache as the call does. */
  lemma CallIsARun<V>(s: State<V>, entries: map<string, Cached<V>>, key: string, w: World<V>, during: seq<Step<V>>)
      returns (steps: seq<Step<V>>, t: State<V>)
    requires Idle(s, entries, key) && Truthful(s, w, during)
    ensures Run(s, steps, t) && t == Called(s, entries, key, w, during) && s.timeline <= t.timeline
    ensures Idle(t, After(entries, key, s.ttl, s.now, w), key)
    ensures var answer := Answer(entries, key, s.now, w);
      if answer.None? then t.handed == s.handed
      else |t.handed| == |s.handed| + 1 && t.handed[..|s.handed|] == s.handed
           && 0 <= Last(t) < |t.timeline| && t.timeline[Last(t)].value == answer.value
  {
    hide Run, Inv, CacheShows, Called, Answer, After;
    t := Called(s, entries, key, w, during);
    steps := CallRuns(s, entries, key, w, during);
    CallAnswers(s, entries, key, w, during);
    RunKeeps(s, steps, t);
  }

  // ----- successive calls -----

  /** What goes on before a call, and the call. */
  datatype Visit<V> = Visit(before: seq<Step<V>>, world: World<V>, during: seq<Step<V>>)

  /** The calls return `answers`, one after the other. */
  ghost predicate Calls<V>(s: State<V>, entries: map<string, Cached<V>>, key: string, visits: seq<Visit<V>>,
      answers: seq<Option<V>>, t: State<V>)
    requires Idle(s, entries, key)
    decreases |visits|
  {
    if visits == [] then answers == [] && t == s
    else
      var v := visits[0];
      && |answers| > 0 && Meanwhile(v.before) && Truthful(Waited(s, v.before), v.world, v.during)
      && var asked := Waited(s, v.before);
         CallKeeps(s, entries, key, v);
         && answers[0] == Answer(entries, key, asked.now, v.world)
         && Calls(Called(asked, entries, key, v.world, v.during), After(entries, key, s.ttl, asked.now, v.world), key,
                  visits[1..], answers[1..], t)
  }

  lemma CallKeeps<V>(s: State<V>, entries: map<string, Cached<V>>, key: string, v: Visit<V>)
    requires Idle(s, entries, key) && Meanwhile(v.before) && Truthful(Waited(s, v.before), v.world, v.during)
    ensures Idle(Waited(s, v.before), entries, key)
    ensures
      var asked := Waited(s, v.before);
      Idle(Called(asked, entries, key, v.world, v.during), After(entries, key, s.ttl, asked.now, v.world), key)
  {
    var asked := Waited(s, v.before);
    RunKeeps(s, v.before, asked);
    var steps, t := CallIsARun(asked, entries, key, v.world, v.during);
  }

  lemma {:induction false} HistoryStays<V>(s: State<V>, entries: map<string, Cached<V>>, key: string,
      visits: seq<Visit<V>>, answers: seq<Option<V>>, t: State<V>)
    requires Idle(s, entries, key) && Calls(s, entries, key, visits, answers, t)
    ensures Inv(t) && t.ttl == s.ttl && s.timeline <= t.timeline && s.handed <= t.handed
    decreases |visits|
  {
    if visits != [] {
      var v, asked := visits[0], Waited(s, visits[0].before);
      CallKeeps(s, entries, key, v);
      var steps, next := CallIsARun(asked, entries, key, v.world, v.during);
      RunKeeps(asked, steps, next);
      HistoryStays(next, After(entries, key, s.ttl, asked.now, v.world), key, visits[1..], answers[1..], t);
    }
  }

  /** Whatever a call among any number of calls returns was GitHub's own answer less than the time to live, plus the
      duration of the call that fetched it, before it was handed out. */
  lemma {:induction false} CallsAreFresh<V>(s: State<V>, entries: map<string, Cached<V>>, key: string,
      visits: seq<Visit<V>>, answers: seq<Option<V>>, t: State<V>, i: nat) returns (r: Read)
    requires Idle(s, entries, key) && Calls(s, entries, key, visits, answers, t) && i < |answers| && answers[i].Some?
    ensures r in t.handed && WasLatest(t.timeline, r.position, r.fetched)
    ensures t.timeline[r.position].value == answers[i].value
    ensures r.fetched <= r.stored && r.fetched <= r.at < r.fetched + s.ttl + (r.stored - r.fetched)
    decreases |visits|
  {
    hide Run, CacheShows, Called, Answer, After, Waited;
    var v, asked := visits[0], Waited(s, visits[0].before);
    CallKeeps(s, entries, key, v);
    var steps, next := CallIsARun(asked, entries, key, v.world, v.during);
    RunKeeps(asked, steps, next);
    var after := After(entries, key, s.ttl, asked.now, v.world);
    if i == 0 {
      HistoryStays(next, after, key, visits[1..], answers[1..], t);
      r := next.handed[|next.handed| - 1];
      assert r == t.handed[|next.handed| - 1] && Fresh(t, r);
    } else {
      r := CallsAreFresh(next, after, key, visits[1..], answers[1..], t, i - 1);
    }
  }

  /** So every tag that successive calls of GetLatestRelease hand out, beginning with an empty cache, was GitHub's own
      answer less than five minutes, plus the duration of the call that fetched it, before. */
  lemma ReleasesAreFresh(key: string, visits: seq<Visit<Tag>>, answers: seq<Option<Tag>>, t: State<Tag>, i: nat)
      returns (r: Read)
    requires Calls(Initial(RELEASE_TTL), map[], key, visits, answers, t) && i < |answers| && answers[i].Some?
    ensures r in t.handed && WasLatest(t.timeline, r.position, r.fetched)
    ensures t.timeline[r.position].value == answers[i].value
    ensures r.fetched <= r.stored && r.fetched <= r.at < r.fetched + 300 + (r.stored - r.fetched)
  {
    r := CallsAreFresh(Initial(RELEASE_TTL), map[], key, visits, answers, t, i);
  }

  /** And every boolean that successive calls of RepoExists hand out, beginning with an empty cache, was GitHub's own
      answer less than a minute, plus the duration of the call that fetched it, before. */
  lemma ExistenceIsFresh(key: string, visits: seq<Visit<bool>>, answers: seq<Option<bool>>, t: State<bool>, i: nat)
      returns (r: Read)
    requires Calls(Initial(EXISTS_TTL), map[], key, visits, answers, t) && i < |answers| && answers[i].Some?
    ensures r in t.handed && WasLatest(t.timeline, r.position, r.fetched)
    ensures t.timeline[r.position].value == answers[i].value
    ensures r.fetched <= r.stored && r.fetched <= r.at < r.fetched + 60 + (r.stored - r.fetched)
  {
    r := CallsAreFresh(Initial(EXISTS_TTL), map[], key, visits, answers, t, i);
  }
}
