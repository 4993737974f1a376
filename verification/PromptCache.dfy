/**
 * Frozen system prompts: each worker process caches one prompt a thread, and a shared epoch file
 * tells all of them, through explicit refreshes, which cached prompts are too old.
 */
module PromptCache {
  import opened Wrappers

  const MAX_FROZEN := 512

  type User = nat
  type Process = nat
  type Date = int

  /** None is a chat without a thread; the empty id is treated like none when reading epochs. */
  type Thread = Option<string>

  datatype Key = Key(user: User, name: string)

  /** A prompt, by the moment its memory snapshot was read. */
  datatype Prompt = Prompt(readAt: nat)

  datatype Stamp = Stamp(date: Date, epoch: nat)

  function CacheKey(user: User, thread: Thread): Key {
    Key(user, if thread == None || thread == Some("") then "_anonymous" else thread.value)
  }

  /** A chat without a thread, or with the empty one, and one named like the placeholder, share their entry. */
  ghost predicate Anonymous(thread: Thread) {
    thread in {None, Some(""), Some("_anonymous")}
  }

  lemma KeysIff(u: User, t: Thread, v: User, s: Thread)
    ensures CacheKey(u, t) == CacheKey(v, s) <==> u == v && (t == s || (Anonymous(t) && Anonymous(s)))
  {
  }

  // ---- the epoch file ----------------------------------------------------------------------

  datatype Epochs = Epochs(all: nat, threads: map<string, nat>)

  const NO_EPOCHS := Epochs(0, map[])

  function Max(a: nat, b: nat): nat {
    if a < b then b else a
  }

  /** snapshot_epoch: the latest refresh affecting the thread. */
  function EpochOf(file: Epochs, thread: Thread): nat {
    if thread == None || thread == Some("") then file.all
    else if thread.value in file.threads then Max(file.all, file.threads[thread.value])
    else file.all
  }

  /** The epoch of a thread is the later of the last refresh of everyone and the last of its own. */
  lemma EpochIsLatest(file: Epochs, thread: Thread)
    ensures var own := if thread.Some? && thread.value != "" && thread.value in file.threads
                       then file.threads[thread.value] else 0;
            && EpochOf(file, thread) >= file.all && EpochOf(file, thread) >= own
            && EpochOf(file, thread) in {file.all, own}
  {
  }

  ghost predicate IsHighest(file: Epochs, h: nat) {
    && file.all <= h && (forall k :: k in file.threads ==> file.threads[k] <= h)
    && (h == file.all || exists k :: k in file.threads && file.threads[k] == h)
  }

  /** bump_snapshot_epoch, given the next epoch: one more than the highest there is, or the clock if later. */
  function Bumped(file: Epochs, thread: Thread, next: nat): Epochs {
    match thread
    case None => Epochs(next, map[])
    case Some(t) => file.(threads := file.threads[t := next])
  }

  /** The threads a refresh is for: everyone's, or the named one's. */
  predicate Affects(refreshed: Thread, thread: Thread) {
    refreshed == None || (refreshed == thread && thread != Some(""))
  }

  ghost predicate AboveAll(file: Epochs, next: nat) {
    file.all < next && forall k :: k in file.threads ==> file.threads[k] < next
  }

  /** A refresh raises the epoch of exactly the threads it is for, and leaves the others' alone. */
  lemma RefreshRaisesIff(file: Epochs, refreshed: Thread, next: nat, thread: Thread)
    requires AboveAll(file, next)
    ensures var (before, after) := (EpochOf(file, thread), EpochOf(Bumped(file, refreshed, next), thread));
            && (Affects(refreshed, thread) <==> before < after)
            && (Affects(refreshed, thread) ==> after == next)
            && (!Affects(refreshed, thread) ==> after == before)
  {
  }

  /** The highest recorded epoch, scanning the threads. */
  method HighestEpoch(file: Epochs) returns (h: nat)
    ensures IsHighest(file, h)
  {
    h := file.all;
    var todo := file.threads.Keys;
    while todo != {}
      invariant todo <= file.threads.Keys && file.all <= h
      invariant forall k :: k in file.threads && k !in todo ==> file.threads[k] <= h
      invariant h == file.all || exists k :: k in file.threads && file.threads[k] == h
      decreases todo
    {
      var k :| k in todo;
      if h < file.threads[k] {
        h := file.threads[k];
      }
      todo := todo - {k};
    }
  }

  /** The epoch file, rewritten under the directory lock. */
  class EpochFile {
    var file: Epochs

    constructor ()
      ensures file == NO_EPOCHS
    {
      file := NO_EPOCHS;
    }

    method BumpSnapshotEpoch(thread: Thread, clock: nat) returns (next: nat)
      modifies this
      ensures AboveAll(old(file), next) && clock <= next
      ensures file == Bumped(old(file), thread, next)
    {
      var highest := HighestEpoch(file);
      next := Max(highest + 1, clock);
      file := Bumped(file, thread, next);
    }
  }

  // ---- one process's cache -----------------------------------------------------------------------

  /** The two maps; `order` is the insertion order of the prompts. */
  datatype Cache = Cache(prompts: map<Key, Prompt>, stamps: map<Key, Stamp>, order: seq<Key>)

  const EMPTY_CACHE := Cache(map[], map[], [])

  ghost predicate Distinct(order: seq<Key>) {
    forall i, j :: 0 <= i < j < |order| ==> order[i] != order[j]
  }

  ghost predicate CacheOk(c: Cache) {
    && c.stamps.Keys == c.prompts.Keys && Distinct(c.order) && |c.order| <= MAX_FROZEN
    && (forall k :: k in c.order <==> k in c.prompts)
  }

  function Lookup(c: Cache, key: Key, today: Date, epoch: nat): Option<Prompt> {
    if key in c.prompts && (key !in c.stamps || (c.stamps[key].date == today && c.stamps[key].epoch >= epoch))
    then Some(c.prompts[key]) else None
  }

  /** An entry serves today and under the current epoch; one without a stamp is not checked. */
  lemma ServesIff(c: Cache, key: Key, today: Date, epoch: nat, prompt: Prompt)
    ensures Lookup(c, key, today, epoch) == Some(prompt) <==>
              && key in c.prompts && c.prompts[key] == prompt
              && (key in c.stamps ==> c.stamps[key].date == today && epoch <= c.stamps[key].epoch)
  {
  }

  function Evict(c: Cache): Cache {
    if c.order == [] then c else Cache(c.prompts - {c.order[0]}, c.stamps - {c.order[0]}, c.order[1..])
  }

  function Put(c: Cache, key: Key, prompt: Prompt, stamp: Stamp): Cache {
    Cache(c.prompts[key := prompt], c.stamps[key := stamp], if key in c.order then c.order else c.order + [key])
  }

  function Store(c: Cache, key: Key, prompt: Prompt, stamp: Stamp): Cache {
    Put(if key !in c.prompts && |c.order| >= MAX_FROZEN then Evict(c) else c, key, prompt, stamp)
  }

  predicate Chosen(key: Key, user: User, thread: Thread) {
    key.user == user && (thread == None || key.name == thread.value)
  }

  function Without(order: seq<Key>, user: User, thread: Thread): seq<Key> {
    if order == [] then []
    else (if Chosen(order[0], user, thread) then [] else [order[0]]) + Without(order[1..], user, thread)
  }

  function Forget(c: Cache, user: User, thread: Thread): Cache {
    var drop := set k | k in c.prompts && Chosen(k, user, thread);
    Cache(c.prompts - drop, c.stamps - drop, Without(c.order, user, thread))
  }

  lemma EvictOk(c: Cache)
    requires CacheOk(c)
    ensures CacheOk(Evict(c)) && (c.order != [] ==> |Evict(c).order| == |c.order| - 1)
  {
    if c.order != [] {
      var (d, first) := (Evict(c), c.order[0]);
      forall k ensures k in d.order <==> k in d.prompts {
        if k in c.order {
          var i :| 0 <= i < |c.order| && c.order[i] == k;
          assert i > 0 ==> d.order[i - 1] == k;
        }
      }
    }
  }

  /** Both maps keep the same keys, and never more than 512 of them. */
  lemma StoreOk(c: Cache, key: Key, prompt: Prompt, stamp: Stamp)
    requires CacheOk(c)
    ensures CacheOk(Store(c, key, prompt, stamp))
    ensures Lookup(Store(c, key, prompt, stamp), key, stamp.date, stamp.epoch) == Some(prompt)
  {
    EvictOk(c);
    PutOk(if key !in c.prompts && |c.order| >= MAX_FROZEN then Evict(c) else c, key, prompt, stamp);
  }

  /** Storing a new prompt in a full cache costs the oldest entry; every other one stays as it is. */
  lemma StoreCosts(c: Cache, key: Key, prompt: Prompt, stamp: Stamp)
    requires CacheOk(c)
    ensures var d := Store(c, key, prompt, stamp);
            && key in d.prompts && d.prompts[key] == prompt && d.stamps[key] == stamp
            && (forall k :: k != key ==>
                  (k in d.prompts <==> k in c.prompts && !(key !in c.prompts && |c.order| == 512 && k == c.order[0])))
            && (forall k :: k != key && k in d.prompts ==>
                  d.prompts[k] == c.prompts[k] && d.stamps[k] == c.stamps[k])
            && (key !in c.prompts ==> d.order[|d.order| - 1] == key)
            && (key in c.prompts ==> d.order == c.order)
  {
    assert key !in c.prompts && |c.order| == 512 ==> c.order[0] in c.order;
  }

  lemma PutOk(c: Cache, key: Key, prompt: Prompt, stamp: Stamp)
    requires CacheOk(c) && (key in c.prompts || |c.order| < MAX_FROZEN)
    ensures CacheOk(Put(c, key, prompt, stamp))
  {
  }

  lemma {:induction false} WithoutKeeps(order: seq<Key>, user: User, thread: Thread)
    ensures |Without(order, user, thread)| <= |order|
    ensures forall k :: k in Without(order, user, thread) <==> k in order && !Chosen(k, user, thread)
    ensures Distinct(order) ==> Distinct(Without(order, user, thread))
  {
    if order != [] {
      WithoutKeeps(order[1..], user, thread);
    }
  }

  lemma ForgetOk(c: Cache, user: User, thread: Thread)
    requires CacheOk(c)
    ensures CacheOk(Forget(c, user, thread))
  {
    WithoutKeeps(c.order, user, thread);
  }

  /** Dropping takes the user's entries, all or those of one thread, and leaves every other one. */
  lemma ForgetTakes(c: Cache, user: User, thread: Thread)
    requires CacheOk(c)
    ensures var d := Forget(c, user, thread);
            && (forall k :: k in d.prompts <==>
                  k in c.prompts && !(k.user == user && (thread == None || thread == Some(k.name))))
            && (forall k :: k in d.prompts ==> d.prompts[k] == c.prompts[k] && d.stamps[k] == c.stamps[k])
  {
    ForgetOk(c, user, thread);
  }

  lemma {:induction false} WithoutSplit(a: seq<Key>, b: seq<Key>, user: User, thread: Thread)
    ensures Without(a + b, user, thread) == Without(a, user, thread) + Without(b, user, thread)
  {
    if a == [] {
      assert [] + b == b;
    } else {
      WithoutSplit(a[1..], b, user, thread);
      assert (a + b)[1..] == a[1..] + b;
      var first := if Chosen(a[0], user, thread) then [] else [a[0]];
      Regroup(first, Without(a[1..], user, thread), Without(b, user, thread));
    }
  }

  class FrozenPrompts {
    var prompts: map<Key, Prompt>
    var stamps: map<Key, Stamp>
    var order: seq<Key>

    ghost function State(): Cache
      reads this
    {
      Cache(prompts, stamps, order)
    }

    constructor ()
      ensures State() == EMPTY_CACHE
    {
      prompts, stamps, order := map[], map[], [];
    }

    /** The epoch has been read before the call, the snapshot behind `built` only if the cache cannot serve. */
    method Serve(key: Key, today: Date, epoch: nat, built: Prompt) returns (prompt: Prompt)
      requires CacheOk(State())
      modifies this
      ensures CacheOk(State())
      ensures var hit := Lookup(old(State()), key, today, epoch);
              && prompt == (if hit.Some? then hit.value else built)
              && State() == (if hit.Some? then old(State()) else Store(old(State()), key, built, Stamp(today, epoch)))
    {
      StoreOk(State(), key, built, Stamp(today, epoch));
      if key in prompts && (key !in stamps || (stamps[key].date == today && stamps[key].epoch >= epoch)) {
        return prompts[key];
      }
      if key !in prompts && |order| >= MAX_FROZEN {
        var oldest := order[0];
        prompts, stamps, order := prompts - {oldest}, stamps - {oldest}, order[1..];
      }
      order := if key in order then order else order + [key];
      prompts, stamps := prompts[key := built], stamps[key := Stamp(today, epoch)];
      return built;
    }

    method Drop(user: User, thread: Thread)
      requires CacheOk(State())
      modifies this
      ensures State() == Forget(old(State()), user, thread) && CacheOk(State())
    {
      GoneIsDropped(State(), user, thread);
      ForgetOk(State(), user, thread);
      order := DropChosen(order, user, thread);
    }

    /** Takes the chosen keys out of both maps; the keys that stay, in order. */
    method DropChosen(keys: seq<Key>, user: User, thread: Thread) returns (kept: seq<Key>)
      modifies this`prompts, this`stamps
      ensures prompts == old(prompts) - Gone(keys, user, thread) && stamps == old(stamps) - Gone(keys, user, thread)
      ensures kept == Without(keys, user, thread)
    {
      kept := [];
      var i := 0;
      while i < |keys|
        invariant i <= |keys| && kept == Without(keys[..i], user, thread)
        invariant prompts == old(prompts) - Gone(keys[..i], user, thread)
        invariant stamps == old(stamps) - Gone(keys[..i], user, thread)
      {
        OneMoreGone(keys, i, user, thread);
        DropOne(old(prompts), keys, i, user, thread);
        DropOne(old(stamps), keys, i, user, thread);
        if Chosen(keys[i], user, thread) {
          prompts, stamps := prompts - {keys[i]}, stamps - {keys[i]};
        } else {
          kept := kept + [keys[i]];
        }
        i := i + 1;
      }
      assert keys[..i] == keys;
    }
  }

  ghost function Gone(keys: seq<Key>, user: User, thread: Thread): set<Key> {
    set k | k in keys && Chosen(k, user, thread)
  }

  lemma DropOne<V>(m: map<Key, V>, keys: seq<Key>, i: nat, user: User, thread: Thread)
    requires i < |keys|
    ensures m - Gone(keys[..i + 1], user, thread)
         == if Chosen(keys[i], user, thread) then (m - Gone(keys[..i], user, thread)) - {keys[i]}
            else m - Gone(keys[..i], user, thread)
  {
    OneMoreGone(keys, i, user, thread);
  }

  lemma GoneIsDropped(c: Cache, user: User, thread: Thread)
    requires CacheOk(c)
    ensures Forget(c, user, thread)
         == Cache(c.prompts - Gone(c.order, user, thread), c.stamps - Gone(c.order, user, thread),
                  Without(c.order, user, thread))
  {
    assert Gone(c.order, user, thread) == set k | k in c.prompts && Chosen(k, user, thread);
  }

  lemma OneMoreGone(keys: seq<Key>, i: nat, user: User, thread: Thread)
    requires i < |keys|
    ensures Gone(keys[..i + 1], user, thread) == Gone(keys[..i], user, thread) + Gone([keys[i]], user, thread)
    ensures Gone([keys[i]], user, thread) == if Chosen(keys[i], user, thread) then {keys[i]} else {}
    ensures Without(keys[..i + 1], user, thread)
         == Without(keys[..i], user, thread) + if Chosen(keys[i], user, thread) then [] else [keys[i]]
  {
    assert keys[..i + 1] == keys[..i] + [keys[i]];
    WithoutSplit(keys[..i], [keys[i]], user, thread);
    assert Without([], user, thread) == [] && [keys[i]][1..] == [];
  }

  // ---- a process at work: each access to a map is a step -------------------------------------------

  /** How far the event loop is with a prompt; between any two stages worker threads may drop prompts. */
  datatype Stage =
    | Looking                                     // the epoch is read
    | Checking(cached: Option<Prompt>)            // the prompt is read, its stamp is not
    | Missed
    | Holding(prompt: Prompt)                     // the snapshot is read
    | Measuring(prompt: Prompt)                   // the key is not cached
    | Choosing(prompt: Prompt)                    // the cache is full
    | Popping(prompt: Prompt, oldest: Key)
    | Evicting(prompt: Prompt, oldest: Key)       // the oldest prompt is out, its stamp is not
    | Putting(prompt: Prompt)
    | Stamping(prompt: Prompt)                    // the prompt is in, its stamp is not

  datatype Serving = Serving(user: User, thread: Thread, started: nat, today: Date, epoch: nat, stage: Stage)

  function KeyOf(s: Serving): Key {
    CacheKey(s.user, s.thread)
  }

  /** A prompt is served on the event loop without a pause, so a process serves one at a time. */
  datatype Proc = Proc(cache: Cache, serving: Option<Serving>)

  const NEW_PROC := Proc(EMPTY_CACHE, None)

  function Remove(order: seq<Key>, key: Key): seq<Key> {
    if order == [] then []
    else if order[0] == key then order[1..]
    else [order[0]] + Remove(order[1..], key)
  }

  function PopPrompt(c: Cache, key: Key): Cache {
    c.(prompts := c.prompts - {key}, order := Remove(c.order, key))
  }

  function PopStamp(c: Cache, key: Key): Cache {
    c.(stamps := c.stamps - {key})
  }

  /** A prompt without a stamp is served whatever the date and the epoch. */
  predicate Hits(s: Serving, c: Cache) {
    && s.stage.Checking? && s.stage.cached.Some?
    && (KeyOf(s) in c.stamps ==> c.stamps[KeyOf(s)].date == s.today && c.stamps[KeyOf(s)].epoch >= s.epoch)
  }

  function StepOn(proc: Proc, now: nat): Proc
    requires proc.serving.Some?
  {
    var (c, s) := (proc.cache, proc.serving.value);
    var key := KeyOf(s);
    match s.stage
    case Looking =>
      Proc(c, Some(s.(stage := Checking(if key in c.prompts then Some(c.prompts[key]) else None))))
    case Checking(_) => Proc(c, if Hits(s, c) then None else Some(s.(stage := Missed)))
    case Missed => Proc(c, Some(s.(stage := Holding(Prompt(now)))))
    case Holding(prompt) => Proc(c, Some(s.(stage := if key in c.prompts then Putting(prompt) else Measuring(prompt))))
    case Measuring(prompt) =>
      Proc(c, Some(s.(stage := if |c.order| >= MAX_FROZEN then Choosing(prompt) else Putting(prompt))))
    case Choosing(prompt) =>
      // Emptied in the meantime, it has no oldest key: the call raises.
      Proc(c, if c.order == [] then None else Some(s.(stage := Popping(prompt, c.order[0]))))
    case Popping(prompt, oldest) => Proc(PopPrompt(c, oldest), Some(s.(stage := Evicting(prompt, oldest))))
    case Evicting(prompt, oldest) => Proc(PopStamp(c, oldest), Some(s.(stage := Putting(prompt))))
    case Putting(prompt) =>
      Proc(c.(prompts := c.prompts[key := prompt], order := if key in c.order then c.order else c.order + [key]),
           Some(s.(stage := Stamping(prompt))))
    case Stamping(_) => Proc(c.(stamps := c.stamps[key := Stamp(s.today, s.epoch)]), None)
  }

  /** The prompt a step hands to the agent, if it ends the call. */
  function Answer(proc: Proc): Option<Prompt>
    requires proc.serving.Some?
  {
    var s := proc.serving.value;
    if Hits(s, proc.cache) then s.stage.cached
    else if s.stage.Stamping? then Some(s.stage.prompt)
    else None
  }

  /** Served from the cache with no stamp to check it by. */
  predicate Unchecked(proc: Proc) {
    proc.serving.Some? && Hits(proc.serving.value, proc.cache) && KeyOf(proc.serving.value) !in proc.cache.stamps
  }

  function StepsLeft(stage: Stage): nat {
    match stage
    case Looking => 10
    case Checking(_) => 9
    case Missed => 8
    case Holding(_) => 7
    case Measuring(_) => 6
    case Choosing(_) => 5
    case Popping(_, _) => 4
    case Evicting(_, _) => 3
    case Putting(_) => 2
    case Stamping(_) => 1
  }

  /** The steps of one call, with nothing in between. */
  function Alone(proc: Proc, now: nat): Cache
    decreases if proc.serving.Some? then StepsLeft(proc.serving.value.stage) else 0
  {
    if proc.serving == None then proc.cache else Alone(StepOn(proc, now), now)
  }

  lemma RemoveFirst(order: seq<Key>)
    requires order != []
    ensures Remove(order, order[0]) == order[1..]
  {
  }

  /** Uninterrupted, the steps are the method Serve. */
  lemma AloneIsServe(c: Cache, s: Serving, now: nat)
    requires CacheOk(c) && s.stage.Looking?
    ensures Alone(Proc(c, Some(s)), now)
         == if Lookup(c, KeyOf(s), s.today, s.epoch).Some? then c
            else Store(c, KeyOf(s), Prompt(now), Stamp(s.today, s.epoch))
  {
    var p1 := StepOn(Proc(c, Some(s)), now);
    var p2 := StepOn(p1, now);
    assert Alone(Proc(c, Some(s)), now) == Alone(p1, now) == Alone(p2, now);
    if Lookup(c, KeyOf(s), s.today, s.epoch) == None {
      var held := s.(stage := Holding(Prompt(now)));
      assert StepOn(p2, now) == Proc(c, Some(held));
      StoredAlone(c, held, now);
    }
  }

  lemma StoredAlone(c: Cache, s: Serving, now: nat)
    requires CacheOk(c) && s.stage.Holding?
    ensures Alone(Proc(c, Some(s)), now) == Store(c, KeyOf(s), s.stage.prompt, Stamp(s.today, s.epoch))
  {
    var (p, putting) := (s.stage.prompt, s.(stage := Putting(s.stage.prompt)));
    var p1 := StepOn(Proc(c, Some(s)), now);
    if p1.serving.value.stage.Measuring? {
      var p2 := StepOn(p1, now);
      assert Alone(Proc(c, Some(s)), now) == Alone(p1, now) == Alone(p2, now);
      if p2.serving.value.stage.Choosing? {
        EvictedAlone(c, p2.serving.value, now);
        PutAlone(Evict(c), putting, now);
      } else {
        PutAlone(c, putting, now);
      }
    } else {
      PutAlone(c, putting, now);
    }
  }

  lemma EvictedAlone(c: Cache, s: Serving, now: nat)
    requires s.stage.Choosing? && c.order != []
    ensures Alone(Proc(c, Some(s)), now) == Alone(Proc(Evict(c), Some(s.(stage := Putting(s.stage.prompt)))), now)
  {
    RemoveFirst(c.order);
    var p1 := StepOn(Proc(c, Some(s)), now);
    var p2 := StepOn(p1, now);
    var p3 := StepOn(p2, now);
    assert p3 == Proc(Evict(c), Some(s.(stage := Putting(s.stage.prompt))));
    assert Alone(Proc(c, Some(s)), now) == Alone(p1, now) == Alone(p2, now) == Alone(p3, now);
  }

  lemma PutAlone(c: Cache, s: Serving, now: nat)
    requires s.stage.Putting?
    ensures Alone(Proc(c, Some(s)), now) == Put(c, KeyOf(s), s.stage.prompt, Stamp(s.today, s.epoch))
  {
    var p2 := StepOn(StepOn(Proc(c, Some(s)), now), now);
    assert Alone(p2, now) == p2.cache;
  }

  // ---- many processes over one file --------------------------------------------------------------

  /** A completed refresh: what it was for, when, and the epoch it wrote. */
  datatype Refresh = Refresh(user: User, thread: Thread, at: nat, epoch: nat)

  /** What the processes share, and what has happened. */
  datatype Past = Past(clock: nat, files: map<User, Epochs>, refreshes: seq<Refresh>)

  type RefreshId = nat

  /** A refresh on a worker thread: the keys it still has to drop; `half`: the first prompt is out, its stamp is not. */
  datatype Refreshing = Refreshing(p: Process, user: User, thread: Thread, todo: seq<Key>, half: bool)

  /** A prompt served; `unchecked`: without a stamp. */
  datatype Served = Served(p: Process, user: User, thread: Thread, started: nat, prompt: Prompt, unchecked: bool)

  datatype World = World(
    past: Past, procs: map<Process, Proc>, refreshing: map<RefreshId, Refreshing>, served: seq<Served>)

  datatype Move =
    | Start(p: Process, user: User, thread: Thread, today: Date)     // reads the epoch
    | Step(p: Process)
    | StartRefresh(r: RefreshId, p: Process, user: User, thread: Thread)
    | Pop(r: RefreshId)
    | Bump(r: RefreshId, next: nat)
    | WriteMemory
    | Restart(p: Process)

  function FileOf(past: Past, user: User): Epochs {
    if user in past.files then past.files[user] else NO_EPOCHS
  }

  function ProcOf(w: World, p: Process): Proc {
    if p in w.procs then w.procs[p] else NEW_PROC
  }

  /** The keys a refresh finds when it lists the prompts. */
  function Picked(order: seq<Key>, user: User, thread: Thread): seq<Key> {
    if order == [] then []
    else (if Chosen(order[0], user, thread) then [order[0]] else []) + Picked(order[1..], user, thread)
  }

  function PopOn(proc: Proc, key: Key, half: bool): Proc {
    proc.(cache := if half then PopStamp(proc.cache, key) else PopPrompt(proc.cache, key))
  }

  function Popped(x: Refreshing): Refreshing
    requires x.todo != []
  {
    if x.half then x.(todo := x.todo[1..], half := false) else x.(half := true)
  }

  ghost predicate Enabled(w: World, m: Move) {
    match m
    case Start(p, _, _, _) => ProcOf(w, p).serving.None?
    case Step(p) => ProcOf(w, p).serving.Some?
    case StartRefresh(r, _, _, _) => r !in w.refreshing
    case Pop(r) => r in w.refreshing && w.refreshing[r].todo != []
    case Bump(r, next) =>
      && r in w.refreshing && w.refreshing[r].todo == []
      && AboveAll(FileOf(w.past, w.refreshing[r].user), next)
    case _ => true
  }

  function Tick(past: Past): Past {
    past.(clock := past.clock + 1)
  }

  function Refreshed(past: Past, user: User, thread: Thread, next: nat): Past {
    Past(past.clock + 1, past.files[user := Bumped(FileOf(past, user), thread, next)],
         past.refreshes + [Refresh(user, thread, past.clock, next)])
  }

  function Begun(past: Past, proc: Proc, user: User, thread: Thread, today: Date): Proc {
    proc.(serving := Some(Serving(user, thread, past.clock, today, EpochOf(FileOf(past, user), thread), Looking)))
  }

  /** What a step of a process adds to the prompts served. */
  function ServedBy(p: Process, proc: Proc): seq<Served>
    requires proc.serving.Some?
  {
    var s := proc.serving.value;
    if Answer(proc) == None then []
    else [Served(p, s.user, s.thread, s.started, Answer(proc).value, Unchecked(proc))]
  }

  function Apply(w: World, m: Move): World
    requires Enabled(w, m)
  {
    var v := w.(past := Tick(w.past));
    match m
    case Start(p, user, thread, today) => v.(procs := w.procs[p := Begun(w.past, ProcOf(w, p), user, thread, today)])
    case Step(p) =>
      var proc := ProcOf(w, p);
      v.(procs := w.procs[p := StepOn(proc, w.past.clock)], served := w.served + ServedBy(p, proc))
    case StartRefresh(r, p, user, thread) =>
      v.(refreshing := w.refreshing[
           r := Refreshing(p, user, thread, Picked(ProcOf(w, p).cache.order, user, thread), false)])
    case Pop(r) =>
      var x := w.refreshing[r];
      v.(procs := w.procs[x.p := PopOn(ProcOf(w, x.p), x.todo[0], x.half)],
         refreshing := w.refreshing[r := Popped(x)])
    case Bump(r, next) =>
      var x := w.refreshing[r];
      v.(past := Refreshed(w.past, x.user, x.thread, next), refreshing := w.refreshing - {r})
    case WriteMemory => v
    case Restart(p) =>
      v.(procs := w.procs - {p}, refreshing := w.refreshing - set r | r in w.refreshing && w.refreshing[r].p == p)
  }

  // ---- what every step keeps --------------------------------------------------------------------------

  predicate For(r: Refresh, user: User, thread: Thread) {
    r.user == user && Affects(r.thread, thread)
  }

  /** Every refresh of the thread that was over before `started` is older than the snapshot. */
  ghost predicate Fresh(past: Past, user: User, thread: Thread, started: nat, prompt: Prompt) {
    forall i :: 0 <= i < |past.refreshes| && For(past.refreshes[i], user, thread) && past.refreshes[i].at < started ==>
      past.refreshes[i].at < prompt.readAt
  }

  /** An epoch read from the file at some time: any later bump goes above it. */
  ghost predicate Seen(file: Epochs, epoch: nat) {
    forall n :: AboveAll(file, n) ==> epoch < n
  }

  /** Any refresh later than the prompt's snapshot wrote a higher epoch than the stamp's. */
  ghost predicate SlotOk(past: Past, user: User, prompt: Prompt, epoch: nat) {
    && Seen(FileOf(past, user), epoch)
    && forall i :: 0 <= i < |past.refreshes| && past.refreshes[i].user == user ==>
         prompt.readAt <= past.refreshes[i].at ==> epoch < past.refreshes[i].epoch
  }

  ghost predicate OrderOk(c: Cache) {
    && Distinct(c.order) && |c.order| <= MAX_FROZEN
    && (forall k :: k in c.order <==> k in c.prompts)
  }

  ghost predicate SlotsOk(past: Past, c: Cache) {
    && (forall k :: k in c.prompts ==> c.prompts[k].readAt < past.clock)
    && (forall k :: k in c.stamps ==> Seen(FileOf(past, k.user), c.stamps[k].epoch))
    && (forall k :: k in c.stamps && k in c.prompts ==> SlotOk(past, k.user, c.prompts[k], c.stamps[k].epoch))
  }

  /** The epoch read at the start covers every refresh that was over by then. */
  ghost predicate Covers(past: Past, s: Serving) {
    forall i :: 0 <= i < |past.refreshes| && For(past.refreshes[i], s.user, s.thread) ==>
      past.refreshes[i].at < s.started ==> past.refreshes[i].epoch <= s.epoch
  }

  /** A prompt may stand beside the stamp its key has now. */
  ghost predicate Fits(past: Past, c: Cache, key: Key, prompt: Prompt) {
    key in c.stamps ==> SlotOk(past, key.user, prompt, c.stamps[key].epoch)
  }

  ghost predicate BuiltOk(past: Past, s: Serving, prompt: Prompt) {
    s.started <= prompt.readAt < past.clock && SlotOk(past, s.user, prompt, s.epoch)
  }

  ghost predicate ServingOk(past: Past, c: Cache, s: Serving) {
    && s.started <= past.clock && Seen(FileOf(past, s.user), s.epoch) && Covers(past, s)
    && match s.stage
       case Looking => true
       case Checking(cached) => cached.Some? ==> Fits(past, c, KeyOf(s), cached.value)
       case Missed => true
       case Holding(prompt) => BuiltOk(past, s, prompt) && Fits(past, c, KeyOf(s), prompt)
       case Measuring(prompt) => BuiltOk(past, s, prompt) && Fits(past, c, KeyOf(s), prompt)
       case Choosing(prompt) => BuiltOk(past, s, prompt) && Fits(past, c, KeyOf(s), prompt)
       case Popping(prompt, oldest) =>
         && BuiltOk(past, s, prompt) && Fits(past, c, KeyOf(s), prompt)
         && (oldest in c.prompts || |c.order| < MAX_FROZEN)
       case Evicting(prompt, oldest) =>
         && BuiltOk(past, s, prompt) && Fits(past, c, KeyOf(s), prompt)
         && oldest !in c.prompts && |c.order| < MAX_FROZEN
       case Putting(prompt) =>
         && BuiltOk(past, s, prompt) && Fits(past, c, KeyOf(s), prompt)
         && (KeyOf(s) in c.prompts || |c.order| < MAX_FROZEN)
       case Stamping(prompt) =>
         BuiltOk(past, s, prompt) && (KeyOf(s) in c.prompts ==> c.prompts[KeyOf(s)] == prompt)
  }

  ghost predicate ProcOk(past: Past, proc: Proc) {
    && OrderOk(proc.cache) && SlotsOk(past, proc.cache)
    && (proc.serving.Some? ==> ServingOk(past, proc.cache, proc.serving.value))
  }

  ghost predicate PastOk(past: Past) {
    && (forall i :: 0 <= i < |past.refreshes| ==> past.refreshes[i].at < past.clock)
    && (forall i, thread: Thread :: 0 <= i < |past.refreshes| && Affects(past.refreshes[i].thread, thread) ==>
          past.refreshes[i].epoch <= EpochOf(FileOf(past, past.refreshes[i].user), thread))
  }

  ghost predicate ServedOk(past: Past, x: Served) {
    x.started <= past.clock && (!x.unchecked ==> Fresh(past, x.user, x.thread, x.started, x.prompt))
  }

  ghost predicate Inv(w: World) {
    && PastOk(w.past)
    && (forall p :: p in w.procs ==> ProcOk(w.past, w.procs[p]))
    && (forall i :: 0 <= i < |w.served| ==> ServedOk(w.past, w.served[i]))
  }

  lemma BumpKeepsSeen(file: Epochs, thread: Thread, next: nat, epoch: nat)
    requires AboveAll(file, next) && Seen(file, epoch)
    ensures Seen(Bumped(file, thread, next), epoch) && epoch < next
  {
    forall n | AboveAll(Bumped(file, thread, next), n) ensures epoch < n {
      match thread {
        case None => assert next < n;
        case Some(t) => assert Bumped(file, thread, next).threads[t] == next;
      }
    }
  }

  lemma {:induction false} RemoveRemoves(order: seq<Key>, key: Key)
    requires Distinct(order)
    ensures Distinct(Remove(order, key)) && |Remove(order, key)| <= |order|
    ensures forall k :: k in Remove(order, key) <==> k in order && k != key
    ensures key in order ==> |Remove(order, key)| < |order|
  {
    if order != [] && order[0] != key {
      RemoveRemoves(order[1..], key);
      assert order[0] !in order[1..];
    }
  }

  lemma PopKeepsOrder(c: Cache, key: Key)
    requires OrderOk(c)
    ensures OrderOk(PopPrompt(c, key)) && |PopPrompt(c, key).order| <= |c.order|
    ensures key in c.prompts ==> |PopPrompt(c, key).order| < |c.order|
  {
    RemoveRemoves(c.order, key);
  }

  lemma PutKeepsOrder(c: Cache, key: Key, prompt: Prompt)
    requires OrderOk(c) && (key in c.prompts || |c.order| < MAX_FROZEN)
    ensures OrderOk(c.(prompts := c.prompts[key := prompt],
                       order := if key in c.order then c.order else c.order + [key]))
  {
  }

  lemma NewSlotOk(past: Past, user: User, epoch: nat)
    requires PastOk(past) && Seen(FileOf(past, user), epoch)
    ensures SlotOk(past, user, Prompt(past.clock), epoch)
  {
  }

  lemma TickKeepsProc(past: Past, proc: Proc)
    requires ProcOk(past, proc)
    ensures ProcOk(Tick(past), proc)
  {
    var next := Tick(past);
    assert forall user :: FileOf(next, user) == FileOf(past, user);
    assert forall user, prompt, epoch :: SlotOk(past, user, prompt, epoch) ==> SlotOk(next, user, prompt, epoch);
  }

  lemma ReadingKeepsProc(past: Past, proc: Proc, now: nat)
    requires ProcOk(past, proc) && proc.serving.Some?
    requires proc.serving.value.stage.Looking? || proc.serving.value.stage.Checking?
    ensures ProcOk(past, StepOn(proc, now))
  {
  }

  lemma SnapshotKeepsProc(past: Past, proc: Proc)
    requires PastOk(past) && ProcOk(past, proc) && proc.serving.Some? && proc.serving.value.stage.Missed?
    ensures ProcOk(Tick(past), StepOn(proc, past.clock))
  {
    var (c, s) := (proc.cache, proc.serving.value);
    NewSlotOk(past, s.user, s.epoch);
    if KeyOf(s) in c.stamps {
      NewSlotOk(past, s.user, c.stamps[KeyOf(s)].epoch);
    }
    TickKeepsProc(past, proc);
  }

  lemma ChoosingKeepsProc(past: Past, proc: Proc, now: nat)
    requires ProcOk(past, proc) && proc.serving.Some?
    requires var stage := proc.serving.value.stage; stage.Holding? || stage.Measuring? || stage.Choosing?
    ensures ProcOk(past, StepOn(proc, now))
  {
    var c := proc.cache;
    if c.order != [] {
      assert c.order[0] in c.order;
    }
  }

  lemma EvictingKeepsProc(past: Past, proc: Proc, now: nat)
    requires ProcOk(past, proc) && proc.serving.Some?
    requires proc.serving.value.stage.Popping? || proc.serving.value.stage.Evicting?
    ensures ProcOk(past, StepOn(proc, now))
  {
    PopKeepsOrder(proc.cache, proc.serving.value.stage.oldest);
  }

  lemma PuttingKeepsProc(past: Past, proc: Proc, now: nat)
    requires ProcOk(past, proc) && proc.serving.Some? && proc.serving.value.stage.Putting?
    ensures ProcOk(past, StepOn(proc, now))
  {
    PutKeepsOrder(proc.cache, KeyOf(proc.serving.value), proc.serving.value.stage.prompt);
  }

  lemma StampingKeepsProc(past: Past, proc: Proc, now: nat)
    requires ProcOk(past, proc) && proc.serving.Some? && proc.serving.value.stage.Stamping?
    ensures ProcOk(past, StepOn(proc, now))
  {
  }

  lemma StepKeepsProc(past: Past, proc: Proc)
    requires PastOk(past) && ProcOk(past, proc) && proc.serving.Some?
    ensures ProcOk(Tick(past), StepOn(proc, past.clock))
  {
    TickKeepsProc(past, proc);
    match proc.serving.value.stage {
      case Missed => SnapshotKeepsProc(past, proc);
      case Putting(_) => PuttingKeepsProc(Tick(past), proc, past.clock);
      case Stamping(_) => StampingKeepsProc(Tick(past), proc, past.clock);
      case Looking => ReadingKeepsProc(Tick(past), proc, past.clock);
      case Checking(_) => ReadingKeepsProc(Tick(past), proc, past.clock);
      case Popping(_, _) => EvictingKeepsProc(Tick(past), proc, past.clock);
      case Evicting(_, _) => EvictingKeepsProc(Tick(past), proc, past.clock);
      case _ => ChoosingKeepsProc(Tick(past), proc, past.clock);
    }
  }

  lemma BegunOk(past: Past, proc: Proc, user: User, thread: Thread, today: Date)
    requires PastOk(past) && ProcOk(past, proc)
    ensures ProcOk(Tick(past), Begun(past, proc, user, thread, today))
  {
    TickKeepsProc(past, proc);
  }

  lemma PopKeepsProc(past: Past, proc: Proc, key: Key, half: bool)
    requires ProcOk(past, proc)
    ensures ProcOk(past, PopOn(proc, key, half))
  {
    PopKeepsOrder(proc.cache, key);
  }

  lemma BumpKeepsSlot(past: Past, user: User, thread: Thread, next: nat, owner: User, prompt: Prompt, epoch: nat)
    requires AboveAll(FileOf(past, user), next) && SlotOk(past, owner, prompt, epoch)
    ensures SlotOk(Refreshed(past, user, thread, next), owner, prompt, epoch)
  {
    if owner == user {
      BumpKeepsSeen(FileOf(past, user), thread, next, epoch);
    }
  }

  lemma BumpKeepsSeenBy(past: Past, user: User, thread: Thread, next: nat, owner: User, epoch: nat)
    requires AboveAll(FileOf(past, user), next) && Seen(FileOf(past, owner), epoch)
    ensures Seen(FileOf(Refreshed(past, user, thread, next), owner), epoch)
  {
    if owner == user {
      BumpKeepsSeen(FileOf(past, user), thread, next, epoch);
    }
  }

  lemma BumpKeepsServing(past: Past, user: User, thread: Thread, next: nat, c: Cache, s: Serving)
    requires AboveAll(FileOf(past, user), next) && ServingOk(past, c, s)
    ensures ServingOk(Refreshed(past, user, thread, next), c, s)
  {
    var after := Refreshed(past, user, thread, next);
    BumpKeepsSeenBy(past, user, thread, next, s.user, s.epoch);
    var held := match s.stage
      case Checking(cached) => cached
      case Holding(prompt) => Some(prompt)
      case Measuring(prompt) => Some(prompt)
      case Choosing(prompt) => Some(prompt)
      case Popping(prompt, _) => Some(prompt)
      case Evicting(prompt, _) => Some(prompt)
      case Putting(prompt) => Some(prompt)
      case Stamping(prompt) => Some(prompt)
      case _ => None;
    if held.Some? {
      if SlotOk(past, s.user, held.value, s.epoch) {
        BumpKeepsSlot(past, user, thread, next, s.user, held.value, s.epoch);
      }
      if KeyOf(s) in c.stamps && SlotOk(past, s.user, held.value, c.stamps[KeyOf(s)].epoch) {
        BumpKeepsSlot(past, user, thread, next, s.user, held.value, c.stamps[KeyOf(s)].epoch);
      }
    }
  }

  lemma BumpKeepsProc(past: Past, user: User, thread: Thread, next: nat, proc: Proc)
    requires AboveAll(FileOf(past, user), next) && ProcOk(past, proc)
    ensures ProcOk(Refreshed(past, user, thread, next), proc)
  {
    var (after, c) := (Refreshed(past, user, thread, next), proc.cache);
    forall k | k in c.stamps ensures Seen(FileOf(after, k.user), c.stamps[k].epoch) {
      BumpKeepsSeenBy(past, user, thread, next, k.user, c.stamps[k].epoch);
    }
    forall k | k in c.stamps && k in c.prompts ensures SlotOk(after, k.user, c.prompts[k], c.stamps[k].epoch) {
      BumpKeepsSlot(past, user, thread, next, k.user, c.prompts[k], c.stamps[k].epoch);
    }
    if proc.serving.Some? {
      BumpKeepsServing(past, user, thread, next, c, proc.serving.value);
    }
  }

  lemma BumpKeepsPast(past: Past, user: User, thread: Thread, next: nat)
    requires PastOk(past) && AboveAll(FileOf(past, user), next)
    ensures PastOk(Refreshed(past, user, thread, next))
  {
    var after := Refreshed(past, user, thread, next);
    forall i, t: Thread | 0 <= i < |after.refreshes| && Affects(after.refreshes[i].thread, t)
      ensures after.refreshes[i].epoch <= EpochOf(FileOf(after, after.refreshes[i].user), t)
    {
      RefreshRaisesIff(FileOf(past, user), thread, next, t);
      if i < |past.refreshes| {
        assert after.refreshes[i] == past.refreshes[i];
      }
    }
  }

  /** What a call hands out is fresh, unless it found no stamp. */
  lemma AnswerIsFresh(past: Past, proc: Proc)
    requires PastOk(past) && ProcOk(past, proc) && proc.serving.Some? && Answer(proc).Some? && !Unchecked(proc)
    ensures var s := proc.serving.value; Fresh(past, s.user, s.thread, s.started, Answer(proc).value)
  {
    var s := proc.serving.value;
    if Hits(s, proc.cache) {
      assert SlotOk(past, s.user, s.stage.cached.value, proc.cache.stamps[KeyOf(s)].epoch);
    }
  }

  lemma MovesKeepProc(w: World, m: Move, p: Process)
    requires Inv(w) && Enabled(w, m) && p in Apply(w, m).procs
    ensures ProcOk(Apply(w, m).past, Apply(w, m).procs[p])
  {
    var proc := ProcOf(w, p);
    assert ProcOk(w.past, NEW_PROC);
    match m {
      case Start(q, user, thread, today) =>
        TickKeepsProc(w.past, proc);
        BegunOk(w.past, ProcOf(w, q), user, thread, today);
      case Step(q) =>
        TickKeepsProc(w.past, proc);
        StepKeepsProc(w.past, ProcOf(w, q));
      case Pop(r) =>
        TickKeepsProc(w.past, proc);
        PopKeepsProc(Tick(w.past), proc, w.refreshing[r].todo[0], w.refreshing[r].half);
      case Bump(r, next) => BumpKeepsProc(w.past, w.refreshing[r].user, w.refreshing[r].thread, next, proc);
      case _ => TickKeepsProc(w.past, proc);
    }
  }

  lemma MovesKeepPast(w: World, m: Move)
    requires Inv(w) && Enabled(w, m)
    ensures PastOk(Apply(w, m).past)
  {
    if m.Bump? {
      BumpKeepsPast(w.past, w.refreshing[m.r].user, w.refreshing[m.r].thread, m.next);
    } else {
      assert Apply(w, m).past == Tick(w.past);
      assert forall user :: FileOf(Tick(w.past), user) == FileOf(w.past, user);
    }
  }

  lemma MovesKeepServed(w: World, m: Move, i: nat)
    requires Inv(w) && Enabled(w, m) && i < |Apply(w, m).served|
    ensures ServedOk(Apply(w, m).past, Apply(w, m).served[i])
  {
    if i < |w.served| {
      assert Apply(w, m).served[i] == w.served[i] && ServedOk(w.past, w.served[i]);
    } else {
      var proc := ProcOf(w, m.p);
      assert ProcOk(w.past, NEW_PROC);
      if !Unchecked(proc) {
        AnswerIsFresh(w.past, proc);
      }
    }
  }

  lemma MovesKeepInv(w: World, m: Move)
    requires Inv(w) && Enabled(w, m)
    ensures Inv(Apply(w, m))
  {
    var v := Apply(w, m);
    MovesKeepPast(w, m);
    forall p | p in v.procs ensures ProcOk(v.past, v.procs[p]) {
      MovesKeepProc(w, m, p);
    }
    forall i | 0 <= i < |v.served| ensures ServedOk(v.past, v.served[i]) {
      MovesKeepServed(w, m, i);
    }
  }

  // ---- torn drops ------------------------------------------------------------------------------------

  /** A cached prompt of the key, or one just read from the cache, has no stamp to be checked by. */
  predicate Exposed(proc: Proc, key: Key) {
    var serving := proc.serving.Some? && KeyOf(proc.serving.value) == key;
    && key !in proc.cache.stamps
    && (|| (key in proc.cache.prompts && !(serving && proc.serving.value.stage.Stamping?))
        || (serving && proc.serving.value.stage.Checking? && proc.serving.value.stage.cached.Some?))
  }

  /** A drop takes out the stamp while a prompt of the key is cached, or has just been read. */
  predicate Tears(w: World, m: Move, p: Process, key: Key) {
    && m.Pop? && m.r in w.refreshing && w.refreshing[m.r].todo != [] && w.refreshing[m.r].half
    && w.refreshing[m.r].p == p && w.refreshing[m.r].todo[0] == key
    && key in ProcOf(w, p).cache.stamps && Exposed(PopOn(ProcOf(w, p), key, true), key)
  }

  lemma StepNeverExposes(past: Past, proc: Proc, key: Key)
    requires ProcOk(past, proc) && proc.serving.Some? && !Exposed(proc, key)
    ensures !Exposed(StepOn(proc, past.clock), key)
  {
    if proc.serving.value.stage.Popping? {
      RemoveRemoves(proc.cache.order, proc.serving.value.stage.oldest);
    }
  }

  /** Nothing but a torn drop exposes a prompt. */
  lemma ExposedIff(w: World, m: Move, p: Process, key: Key)
    requires Inv(w) && Enabled(w, m) && !Exposed(ProcOf(w, p), key)
    ensures Exposed(ProcOf(Apply(w, m), p), key) <==> Tears(w, m, p, key)
  {
    assert ProcOk(w.past, NEW_PROC);
    if m.Step? && m.p == p {
      StepNeverExposes(w.past, ProcOf(w, p), key);
    }
  }

  const COLD := World(Past(0, map[], []), map[], map[], [])

  ghost predicate Next(w: World, m: Move, v: World) {
    Enabled(w, m) && v == Apply(w, m)
  }

  ghost predicate StepAt(worlds: seq<World>, moves: seq<Move>, t: nat)
    requires |worlds| == |moves| + 1 && t < |moves|
  {
    Next(worlds[t], moves[t], worlds[t + 1])
  }

  ghost predicate IsRun(w: World, worlds: seq<World>, moves: seq<Move>) {
    && |worlds| == |moves| + 1 && worlds[0] == w
    && forall t :: 0 <= t < |moves| ==> StepAt(worlds, moves, t)
  }

  /** No drop of the key tears in this process. */
  ghost predicate Untorn(worlds: seq<World>, moves: seq<Move>, p: Process, key: Key)
    requires |worlds| == |moves| + 1
  {
    forall t :: 0 <= t < |moves| ==> !Tears(worlds[t], moves[t], p, key)
  }

  lemma {:induction false} RunInv(w: World, worlds: seq<World>, moves: seq<Move>, k: nat)
    requires Inv(w) && IsRun(w, worlds, moves) && k < |worlds|
    ensures Inv(worlds[k])
  {
    if k > 0 {
      RunInv(w, worlds, moves, k - 1);
      assert StepAt(worlds, moves, k - 1);
      MovesKeepInv(worlds[k - 1], moves[k - 1]);
    }
  }

  lemma {:induction false} UntornIsCovered(
      w: World, worlds: seq<World>, moves: seq<Move>, k: nat, p: Process, key: Key)
    requires Inv(w) && IsRun(w, worlds, moves) && Untorn(worlds, moves, p, key) && k < |worlds|
    requires !Exposed(ProcOf(w, p), key)
    ensures !Exposed(ProcOf(worlds[k], p), key)
  {
    if k > 0 {
      UntornIsCovered(w, worlds, moves, k - 1, p, key);
      RunInv(w, worlds, moves, k - 1);
      assert StepAt(worlds, moves, k - 1);
      ExposedIff(worlds[k - 1], moves[k - 1], p, key);
    }
  }

  /** The prompts served along a run are those served before, and checked ones. */
  lemma {:induction false} UntornIsChecked(
      w: World, worlds: seq<World>, moves: seq<Move>, k: nat, p: Process, key: Key, i: nat)
    requires Inv(w) && IsRun(w, worlds, moves) && Untorn(worlds, moves, p, key) && k < |worlds|
    requires !Exposed(ProcOf(w, p), key) && |w.served| <= i < |worlds[k].served|
    requires worlds[k].served[i].p == p && CacheKey(worlds[k].served[i].user, worlds[k].served[i].thread) == key
    ensures !worlds[k].served[i].unchecked
  {
    var v := worlds[k - 1];
    assert StepAt(worlds, moves, k - 1);
    if i < |v.served| {
      assert worlds[k].served[i] == v.served[i];
      UntornIsChecked(w, worlds, moves, k - 1, p, key, i);
    } else {
      UntornIsCovered(w, worlds, moves, k - 1, p, key);
    }
  }

  /**
   * A prompt served from a snapshot older than a refresh, of everything or of its thread, that was
   * over when the call began was found without a stamp, after a torn drop of its key. And no
   * process ever caches more than 512.
   */
  lemma PromptsAreFresh(worlds: seq<World>, moves: seq<Move>, k: nat, i: nat, r: nat)
    requires IsRun(COLD, worlds, moves) && k < |worlds| && i < |worlds[k].served|
    requires r < |worlds[k].past.refreshes|
    requires var x := worlds[k].served[i];
             For(worlds[k].past.refreshes[r], x.user, x.thread) && worlds[k].past.refreshes[r].at < x.started
    ensures var x := worlds[k].served[i];
            || worlds[k].past.refreshes[r].at < x.prompt.readAt
            || (x.unchecked && !Untorn(worlds, moves, x.p, CacheKey(x.user, x.thread)))
    ensures forall p :: p in worlds[k].procs ==> OrderOk(worlds[k].procs[p].cache)
  {
    RunInv(COLD, worlds, moves, k);
    var x := worlds[k].served[i];
    var key := CacheKey(x.user, x.thread);
    assert ServedOk(worlds[k].past, x);
    if Untorn(worlds, moves, x.p, key) {
      UntornIsChecked(COLD, worlds, moves, k, x.p, key, i);
    }
  }

  // ---- what a torn drop leaves behind -------------------------------------------------------------------

  /** The i-th prompt served misses a refresh that was over before the call. */
  ghost predicate StaleAt(w: World, i: nat, p: Process, key: Key) {
    && i < |w.served| && w.served[i].p == p && CacheKey(w.served[i].user, w.served[i].thread) == key
    && !Fresh(w.past, w.served[i].user, w.served[i].thread, w.served[i].started, w.served[i].prompt)
  }

  ghost predicate ServesStale(w: World, worlds: seq<World>, moves: seq<Move>, p: Process, key: Key) {
    && IsRun(w, worlds, moves) && Untorn(worlds, moves, p, key)
    && exists i :: |w.served| <= i && StaleAt(worlds[|moves|], i, p, key)
  }

  /** A refresh through a process that caches nothing yet. */
  lemma RefreshElsewhere(w: World, q: Process, r: RefreshId, user: User, next: nat)
      returns (worlds: seq<World>, moves: seq<Move>)
    requires q !in w.procs && r !in w.refreshing && AboveAll(FileOf(w.past, user), next)
    ensures IsRun(w, worlds, moves) && moves == [StartRefresh(r, q, user, None), Bump(r, next)]
    ensures worlds[2] == w.(past := Refreshed(Tick(w.past), user, None, next))
  {
    var a := Apply(w, StartRefresh(r, q, user, None));
    assert a.refreshing == w.refreshing[r := Refreshing(q, user, None, [], false)];
    assert a.refreshing - {r} == w.refreshing;
    worlds, moves := [w, a, Apply(a, Bump(r, next))], [StartRefresh(r, q, user, None), Bump(r, next)];
  }

  /** A whole call on an exposed prompt: it is served, with no look at date or epoch. */
  lemma CallExposed(w: World, p: Process, user: User, thread: Thread, today: Date)
      returns (worlds: seq<World>, moves: seq<Move>)
    requires ProcOf(w, p).serving == None && Exposed(ProcOf(w, p), CacheKey(user, thread))
    ensures IsRun(w, worlds, moves) && moves == [Start(p, user, thread, today), Step(p), Step(p)]
    ensures worlds[3].past == Tick(Tick(Tick(w.past)))
    ensures worlds[3].served == w.served + [Served(p, user, thread, w.past.clock,
                                                   ProcOf(w, p).cache.prompts[CacheKey(user, thread)], true)]
  {
    var w1 := Apply(w, Start(p, user, thread, today));
    var w2 := Apply(w1, Step(p));
    assert ServedBy(p, ProcOf(w1, p)) == [];
    worlds, moves := [w, w1, w2, Apply(w2, Step(p))], [Start(p, user, thread, today), Step(p), Step(p)];
  }

  lemma RunsAppend(w: World, worlds: seq<World>, moves: seq<Move>, later: seq<World>, more: seq<Move>)
    requires IsRun(w, worlds, moves) && IsRun(worlds[|moves|], later, more)
    ensures IsRun(w, worlds + later[1..], moves + more) && (worlds + later[1..])[|moves + more|] == later[|more|]
  {
    var (ws, ms) := (worlds + later[1..], moves + more);
    forall t | 0 <= t < |ms| ensures StepAt(ws, ms, t) {
      if t < |moves| {
        assert StepAt(worlds, moves, t);
      } else {
        assert StepAt(later, more, t - |moves|);
      }
    }
  }

  lemma LastIsStale(w: World, b: World, e: World, p: Process, user: User, thread: Thread, next: nat)
    requires Inv(w) && p in w.procs && CacheKey(user, thread) in w.procs[p].cache.prompts
    requires b == w.(past := Refreshed(Tick(w.past), user, None, next))
    requires e.past == Tick(Tick(Tick(b.past)))
    requires e.served == b.served + [Served(p, user, thread, b.past.clock,
                                            w.procs[p].cache.prompts[CacheKey(user, thread)], true)]
    ensures StaleAt(e, |w.served|, p, CacheKey(user, thread))
  {
    assert ProcOk(w.past, w.procs[p]);
    assert e.past.refreshes[|w.past.refreshes|] == Refresh(user, None, w.past.clock + 1, next);
  }

  lemma StaleAtEnd(w: World, worlds: seq<World>, moves: seq<Move>, p: Process, key: Key)
    requires IsRun(w, worlds, moves) && forall t :: 0 <= t < |moves| ==> !moves[t].Pop?
    requires StaleAt(worlds[|moves|], |w.served|, p, key)
    ensures ServesStale(w, worlds, moves, p, key)
  {
  }

  /** After one refresh through another process, an exposed prompt is served stale: on any date, at any epoch. */
  lemma ExposedServesStale(
      w: World, p: Process, user: User, thread: Thread, today: Date, q: Process, r: RefreshId, next: nat)
      returns (worlds: seq<World>, moves: seq<Move>)
    requires Inv(w) && ProcOf(w, p).serving == None && Exposed(ProcOf(w, p), CacheKey(user, thread))
    requires q !in w.procs && r !in w.refreshing && AboveAll(FileOf(w.past, user), next)
    ensures ServesStale(w, worlds, moves, p, CacheKey(user, thread))
  {
    var first, refreshing := RefreshElsewhere(w, q, r, user, next);
    var later, calling := CallExposed(first[2], p, user, thread, today);
    RunsAppend(w, first, refreshing, later, calling);
    LastIsStale(w, first[2], later[3], p, user, thread, next);
    worlds, moves := first + later[1..], refreshing + calling;
    StaleAtEnd(w, worlds, moves, p, CacheKey(user, thread));
  }

  lemma CoveredIsNeverStale(w: World, worlds: seq<World>, moves: seq<Move>, p: Process, key: Key, i: nat)
    requires Inv(w) && IsRun(w, worlds, moves) && Untorn(worlds, moves, p, key)
    requires !Exposed(ProcOf(w, p), key) && |w.served| <= i
    ensures !StaleAt(worlds[|moves|], i, p, key)
  {
    var v := worlds[|moves|];
    RunInv(w, worlds, moves, |moves|);
    if i < |v.served| {
      assert ServedOk(v.past, v.served[i]);
      if v.served[i].p == p && CacheKey(v.served[i].user, v.served[i].thread) == key {
        UntornIsChecked(w, worlds, moves, |moves|, p, key, i);
      }
    }
  }

  /**
   * So between calls a process can come to serve the thread a stale prompt, with no further torn
   * drop, exactly when one is exposed now: one whose stamp a torn drop took.
   */
  lemma StaleIffExposed(w: World, p: Process, user: User, thread: Thread, q: Process, r: RefreshId, next: nat)
    requires Inv(w) && ProcOf(w, p).serving == None
    requires q !in w.procs && r !in w.refreshing && AboveAll(FileOf(w.past, user), next)
    ensures Exposed(ProcOf(w, p), CacheKey(user, thread)) <==>
              exists worlds: seq<World>, moves: seq<Move> :: ServesStale(w, worlds, moves, p, CacheKey(user, thread))
  {
    var key := CacheKey(user, thread);
    if Exposed(ProcOf(w, p), key) {
      var worlds, moves := ExposedServesStale(w, p, user, thread, 0, q, r, next);
    } else {
      forall worlds: seq<World>, moves: seq<Move>, i: nat
        | IsRun(w, worlds, moves) && Untorn(worlds, moves, p, key) && |w.served| <= i
        ensures !StaleAt(worlds[|moves|], i, p, key)
      {
        CoveredIsNeverStale(w, worlds, moves, p, key, i);
      }
    }
  }

  // ---- a torn drop is within reach --------------------------------------------------------------------

  /** A whole call on a key that is not cached, in a cache with room. */
  lemma CallMisses(w: World, p: Process, user: User, thread: Thread, today: Date)
      returns (worlds: seq<World>, moves: seq<Move>)
    requires ProcOf(w, p).serving == None && CacheKey(user, thread) !in ProcOf(w, p).cache.prompts
    ensures IsRun(w, worlds, moves) && |moves| == 4 && worlds[4].refreshing == w.refreshing
    ensures worlds[4].past == w.past.(clock := w.past.clock + 4) && worlds[4].procs.Keys == w.procs.Keys + {p}
    ensures ProcOf(worlds[4], p) == Proc(ProcOf(w, p).cache,
              Some(Serving(user, thread, w.past.clock, today, EpochOf(FileOf(w.past, user), thread),
                           Holding(Prompt(w.past.clock + 3)))))
  {
    moves := [Start(p, user, thread, today), Step(p), Step(p), Step(p)];
    var a := Apply(w, moves[0]);
    var b := Apply(a, moves[1]);
    var c := Apply(b, moves[2]);
    worlds := [w, a, b, c, Apply(c, moves[3])];
  }

  lemma CallStores(w: World, p: Process)
      returns (worlds: seq<World>, moves: seq<Move>)
    requires var proc := ProcOf(w, p);
             proc.serving.Some? && proc.serving.value.stage.Holding? && |proc.cache.order| < MAX_FROZEN
             && KeyOf(proc.serving.value) !in proc.cache.prompts
    ensures IsRun(w, worlds, moves) && |moves| == 4 && worlds[4].refreshing == w.refreshing
    ensures worlds[4].past == w.past.(clock := w.past.clock + 4) && worlds[4].procs.Keys == w.procs.Keys + {p}
    ensures var (c, s) := (ProcOf(w, p).cache, ProcOf(w, p).serving.value);
            ProcOf(worlds[4], p) == Proc(Put(c, KeyOf(s), s.stage.prompt, Stamp(s.today, s.epoch)), None)
  {
    moves := [Step(p), Step(p), Step(p), Step(p)];
    var a := Apply(w, moves[0]);
    var b := Apply(a, moves[1]);
    var c := Apply(b, moves[2]);
    worlds := [w, a, b, c, Apply(c, moves[3])];
  }

  lemma CallBuilds(w: World, p: Process, user: User, thread: Thread, today: Date)
      returns (worlds: seq<World>, moves: seq<Move>)
    requires ProcOf(w, p).serving == None && CacheKey(user, thread) !in ProcOf(w, p).cache.prompts
    requires |ProcOf(w, p).cache.order| < MAX_FROZEN
    ensures IsRun(w, worlds, moves) && worlds[|moves|].refreshing == w.refreshing
    ensures worlds[|moves|].past == w.past.(clock := w.past.clock + 8)
    ensures worlds[|moves|].procs.Keys == w.procs.Keys + {p}
    ensures ProcOf(worlds[|moves|], p) == Proc(
              Put(ProcOf(w, p).cache, CacheKey(user, thread), Prompt(w.past.clock + 3),
                  Stamp(today, EpochOf(FileOf(w.past, user), thread))), None)
  {
    var first, reading := CallMisses(w, p, user, thread, today);
    var later, storing := CallStores(first[4], p);
    RunsAppend(w, first, reading, later, storing);
    worlds, moves := first + later[1..], reading + storing;
  }

  /** A refresh lists the prompts, and takes out the first. */
  lemma DropBegins(w: World, p: Process, user: User, r: RefreshId, key: Key)
      returns (worlds: seq<World>, moves: seq<Move>)
    requires ProcOf(w, p).serving == None && ProcOf(w, p).cache.order == [key] && key.user == user
    requires r !in w.refreshing
    ensures IsRun(w, worlds, moves) && |moves| == 2
    ensures worlds[2].refreshing == w.refreshing[r := Refreshing(p, user, None, [key], true)]
    ensures ProcOf(worlds[2], p) == ProcOf(w, p).(cache := PopPrompt(ProcOf(w, p).cache, key))
  {
    moves := [StartRefresh(r, p, user, None), Pop(r)];
    var a := Apply(w, moves[0]);
    assert Picked([key], user, None) == [key] by {
      assert [key][1..] == [];
    }
    assert a.refreshing[r] == Refreshing(p, user, None, [key], false);
    worlds := [w, a, Apply(a, moves[1])];
  }

  /**
   * Any process can come to expose any thread: the refresh takes the prompt out, a call builds it
   * again and stamps it, and the refresh then takes out the new stamp.
   */
  lemma TornDropExposes(p: Process, user: User, thread: Thread, today: Date)
      returns (worlds: seq<World>, moves: seq<Move>)
    ensures IsRun(COLD, worlds, moves) && ProcOf(worlds[|moves|], p).serving == None
    ensures Exposed(ProcOf(worlds[|moves|], p), CacheKey(user, thread))
  {
    var key := CacheKey(user, thread);
    var ws, ms := CallBuilds(COLD, p, user, thread, today);
    var a := ws[|ms|];
    var ws2, ms2 := DropBegins(a, p, user, 0, key);
    RunsAppend(COLD, ws, ms, ws2, ms2);
    ws, ms := ws + ws2[1..], ms + ms2;
    var b := ws[|ms|];
    assert ProcOf(b, p).cache.order == Remove([key], key) == [];
    var ws3, ms3 := CallBuilds(b, p, user, thread, today);
    RunsAppend(COLD, ws, ms, ws3, ms3);
    ws, ms := ws + ws3[1..], ms + ms3;
    var c := ws[|ms|];
    var d := Apply(c, Pop(0));
    var ws4, ms4 := [c, d], [Pop(0)];
    assert StepAt(ws4, ms4, 0);
    RunsAppend(COLD, ws, ms, ws4, ms4);
    worlds, moves := ws + ws4[1..], ms + ms4;
  }

  /** A refresh lists the one cached prompt, and a call reads it. */
  lemma ReadsPrompt(w: World, p: Process, user: User, thread: Thread, today: Date, r: RefreshId, prompt: Prompt)
      returns (worlds: seq<World>, moves: seq<Move>)
    requires ProcOf(w, p).serving == None && r !in w.refreshing
    requires ProcOf(w, p).cache.order == [CacheKey(user, thread)]
    requires ProcOf(w, p).cache.prompts == map[CacheKey(user, thread) := prompt]
    ensures IsRun(w, worlds, moves) && |moves| == 3 && worlds[3].served == w.served
    ensures worlds[3].past == w.past.(clock := w.past.clock + 3) && r in worlds[3].refreshing
    ensures worlds[3].refreshing[r] == Refreshing(p, user, None, [CacheKey(user, thread)], false)
    ensures ProcOf(worlds[3], p) == ProcOf(w, p).(
              serving := Some(Serving(user, thread, w.past.clock + 1, today, EpochOf(FileOf(w.past, user), thread),
                                      Checking(Some(prompt)))))
  {
    moves := [StartRefresh(r, p, user, None), Start(p, user, thread, today), Step(p)];
    var key := CacheKey(user, thread);
    assert Picked([key], user, None) == [key] by {
      assert [key][1..] == [];
    }
    var a := Apply(w, moves[0]);
    var b := Apply(a, moves[1]);
    assert ServedBy(p, ProcOf(b, p)) == [];
    worlds := [w, a, b, Apply(b, moves[2])];
  }

  /** Both pops of a drop between the two reads of a call: the call takes the prompt it read, stamp or not. */
  lemma PoppedBetweenReads(w: World, p: Process, r: RefreshId) returns (worlds: seq<World>, moves: seq<Move>)
    requires ProcOf(w, p).serving.Some?
    requires var s := ProcOf(w, p).serving.value;
             && s.stage.Checking? && s.stage.cached.Some?
             && r in w.refreshing && w.refreshing[r] == Refreshing(p, s.user, None, [KeyOf(s)], false)
    ensures IsRun(w, worlds, moves) && |moves| == 3 && worlds[3].past.refreshes == w.past.refreshes
    ensures var s := ProcOf(w, p).serving.value;
            worlds[3].served == w.served + [Served(p, s.user, s.thread, s.started, s.stage.cached.value, true)]
  {
    moves := [Pop(r), Pop(r), Step(p)];
    var a := Apply(w, moves[0]);
    var b := Apply(a, moves[1]);
    assert ProcOf(b, p).serving == ProcOf(w, p).serving;
    assert Unchecked(ProcOf(b, p));
    worlds := [w, a, b, Apply(b, moves[2])];
  }

  /** So one torn drop can make a call stale by itself: a run from the start, for any two processes and any thread. */
  lemma TornReadServesStale(p: Process, q: Process, user: User, thread: Thread, today: Date)
      returns (worlds: seq<World>, moves: seq<Move>)
    requires p != q
    ensures IsRun(COLD, worlds, moves)
    ensures exists i :: StaleAt(worlds[|moves|], i, p, CacheKey(user, thread))
  {
    var key := CacheKey(user, thread);
    var ws, ms := CallBuilds(COLD, p, user, thread, today);
    var a := ws[|ms|];
    var ws2, ms2 := RefreshElsewhere(a, q, 0, user, 1);
    RunsAppend(COLD, ws, ms, ws2, ms2);
    ws, ms := ws + ws2[1..], ms + ms2;
    var b := ws[|ms|];
    assert b.past.refreshes == [Refresh(user, None, 9, 1)];
    var ws3, ms3 := ReadsPrompt(b, p, user, thread, today, 0, Prompt(3));
    RunsAppend(COLD, ws, ms, ws3, ms3);
    ws, ms := ws + ws3[1..], ms + ms3;
    var ws4, ms4 := PoppedBetweenReads(ws[|ms|], p, 0);
    RunsAppend(COLD, ws, ms, ws4, ms4);
    worlds, moves := ws + ws4[1..], ms + ms4;
    assert worlds[|moves|].past.refreshes[0] == Refresh(user, None, 9, 1);
    assert StaleAt(worlds[|moves|], |b.served|, p, key);
  }

  /** A refresh that names the empty thread reaches nobody: no epoch rises and no prompt is dropped. */
  lemma EmptyThreadRefreshesNobody(file: Epochs, next: nat, c: Cache, user: User, thread: Thread)
    requires AboveAll(file, next) && CacheOk(c)
    requires forall k :: k in c.prompts ==> exists t: Thread :: k == CacheKey(k.user, t)
    ensures EpochOf(Bumped(file, Some(""), next), thread) == EpochOf(file, thread)
    ensures Forget(c, user, Some("")).prompts == c.prompts && Forget(c, user, Some("")).stamps == c.stamps
  {
    RefreshRaisesIff(file, Some(""), next, thread);
    forall k | k in c.prompts ensures !Chosen(k, user, Some("")) {
      var t: Thread :| k == CacheKey(k.user, t);
      assert |"_anonymous"| > 0;
    }
  }
}
