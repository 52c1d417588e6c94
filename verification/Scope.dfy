/**
 * The accessor the observer asks which namespaces to watch and what to attribute an event to. It
 * reads the engine three times, at three instants, with a cache in between; whatever lands between
 * the reads, it never pairs one run's namespaces with another run's identity.
 */
module Scopes {
  import opened Wrappers
  import opened Runs
  import opened EngineSpec
  import opened Machine
  import opened Structure
  import opened Attributions
  import opened Safety
  import Books
  import ObserverSpec
  import ObserverRuns

  /** What the observer is told. */
  datatype RunScope = RunScope(runId: string, namespaces: set<string>, component: string, generation: nat,
    terminal: bool)

  const NO_SCOPE := RunScope("", {}, "", 0, false)

  /** The namespaces found in a recipe, cached by run ID. */
  datatype Cache = Cache(runId: string, namespaces: set<string>)

  const EMPTY_CACHE := Cache("", {})

  // ---- the engine's two cheap reads ----

  function CurrentId(e: Eng): Option<string> { if e.current.Some? then Some(e.current.value.id) else None }

  function ArtifactOf(e: Eng, runId: string, key: string): Option<Bytes> {
    if Holds(e, runId) && key in e.current.value.artifacts then Some(e.current.value.artifacts[key]) else None
  }

  // ---- the accessor ----

  /** The namespace half: from the cache, or from the recipe once there is one, which is then cached. */
  function NamespaceScope(parse: Bytes -> set<string>, cache: Cache, id: Option<string>, recipe: Option<Bytes>): (Cache,
    Cache) {
    match id
    case None => (EMPTY_CACHE, cache)
    case Some(runId) =>
      if cache.runId == runId then (cache, cache)
      else if recipe.None? || recipe.value == [] then (Cache(runId, {}), cache)
      else (Cache(runId, parse(recipe.value)), Cache(runId, parse(recipe.value)))
  }

  /** Composed with the attribution, or nothing if the two reads are of different runs. */
  function Compose(half: Cache, a: Attribution): RunScope {
    if half.runId != a.runId then NO_SCOPE
    else RunScope(a.runId, half.namespaces, a.cursor.action, a.cursor.generation, a.terminal)
  }

  class ScopeAccessor {
    const parse: Bytes -> set<string>
    var cached: Cache

    constructor (p: Bytes -> set<string>)
      ensures parse == p && cached == EMPTY_CACHE
    {
      parse, cached := p, EMPTY_CACHE;
    }

    /** id and recipe are the two engine reads, a the third. */
    method Scope(id: Option<string>, recipe: Option<Bytes>, a: Attribution) returns (sc: RunScope)
      modifies this
      ensures cached == NamespaceScope(parse, old(cached), id, recipe).1
      ensures sc == Compose(NamespaceScope(parse, old(cached), id, recipe).0, a)
    {
      var half := EMPTY_CACHE;
      if id.Some? {
        if cached.runId == id.value {
          half := cached;
        } else {
          half := Cache(id.value, {});
          if recipe.Some? && |recipe.value| > 0 {
            half := half.(namespaces := parse(recipe.value));
            cached := half;
          }
        }
      }
      if half.runId != a.runId { return NO_SCOPE; }
      sc := RunScope(a.runId, half.namespaces, a.cursor.action, a.cursor.generation, a.terminal);
    }
  }

  // ---- it agrees with the engine across races ----

  /** Recommend is step c, and the run in place at boot has a recipe only past it. */
  predicate RecipeBooked(w: Wiring, c: int, s: Sys) {
    Books.Ordered(w, RecipeAt(c)) && Booted(s) && Books.Booked(w, RecipeAt(c), s)
  }

  function RecipeAt(c: int): Books.Plan { Books.Plan(Some(c), None) }

  /** What the cache holds for a run is that run's recipe. */
  predicate CacheOk(parse: Bytes -> set<string>, cache: Cache, h: History) {
    cache.runId == "" || (cache.runId in h.recipes && cache.namespaces == parse(h.recipes[cache.runId]))
  }

  /** A recipe the engine shows is the one its history holds for good. */
  lemma ArtifactIsRecipe(w: Wiring, c: int, s: Sys, evs: seq<Event>, id: string)
    requires RecipeBooked(w, c, s)
    requires ArtifactOf(After(w, s, evs).eng, id, RECIPE).Some?
    ensures var t := After(w, s, evs); id in t.h.recipes && t.h.recipes[id] == ArtifactOf(t.eng, id, RECIPE).value
  {
    AlwaysBooked(w, RecipeAt(c), s, evs);
  }

  /** Events do not spoil a cache. */
  lemma CacheLasts(parse: Bytes -> set<string>, cache: Cache, w: Wiring, c: int, s: Sys, evs: seq<Event>,
    more: seq<Event>)
    requires RecipeBooked(w, c, s)
    requires CacheOk(parse, cache, After(w, s, evs).h)
    ensures CacheOk(parse, cache, After(w, s, evs + more).h)
  {
    if cache.runId != "" {
      RecipeWrittenOnce(w, RecipeAt(c), s, evs, more, cache.runId);
    }
  }

  /**
   * The run ID is read after evs, the cache and the recipe after more, the attribution after last:
   * the namespaces returned are none, or those of the returned run's one recipe, and everything
   * else returned is of the last instant. The cache is kept right for the next call.
   */
  lemma ScopeIsConsistent(parse: Bytes -> set<string>, cache: Cache, w: Wiring, c: int, s: Sys,
                          evs: seq<Event>, more: seq<Event>, last: seq<Event>)
    requires RecipeBooked(w, c, s)
    requires CacheOk(parse, cache, After(w, s, evs + more).h)
    requires CurrentId(After(w, s, evs).eng) != Some("")
    ensures var id := CurrentId(After(w, s, evs).eng);
            var read := After(w, s, evs + more);
            var t := After(w, s, evs + more + last);
            var half := NamespaceScope(parse, cache, id,
              if id.Some? then ArtifactOf(read.eng, id.value, RECIPE) else None);
            var sc := Compose(half.0, ReadAttribution(t.eng));
            && CacheOk(parse, half.1, read.h)
            && (sc.namespaces == {} || (sc.runId in t.h.recipes && sc.namespaces == parse(t.h.recipes[sc.runId])))
            && (sc == NO_SCOPE || (sc.runId == ReadAttribution(t.eng).runId && sc.component == t.eng.cursor.action
                                   && sc.generation == t.eng.cursor.generation &&
                                     sc.terminal == ReadAttribution(t.eng).terminal))
  {
    var id := CurrentId(After(w, s, evs).eng);
    var read := After(w, s, evs + more);
    var recipe := if id.Some? then ArtifactOf(read.eng, id.value, RECIPE) else None;
    if recipe.Some? { ArtifactIsRecipe(w, c, s, evs + more, id.value); }
    var half := NamespaceScope(parse, cache, id, recipe);
    if half.0.namespaces != {} {
      RecipeWrittenOnce(w, RecipeAt(c), s, evs + more, last, half.0.runId);
    }
  }

  /** Once a recipe has been found for a run, later answers about it need no other reading. */
  lemma FoundOnce(parse: Bytes -> set<string>, cache: Cache, id: string, recipe: Option<Bytes>, later: Option<Bytes>)
    requires recipe.Some? && recipe.value != [] && id != cache.runId
    ensures var first := NamespaceScope(parse, cache, Some(id), recipe);
            && first.0 == Cache(id, parse(recipe.value))
            && NamespaceScope(parse, first.1, Some(id), later) == (first.0, first.1)
  {
  }

  /**
   * And while nothing moves, it is what recomputing would give: the current run, with its recipe's
   * namespaces if it has a recipe.
   */
  lemma ScopeIsRecomputed(parse: Bytes -> set<string>, cache: Cache, w: Wiring, c: int, s: Sys, evs: seq<Event>)
    requires RecipeBooked(w, c, s)
    requires var t := After(w, s, evs);
             CacheOk(parse, cache, t.h) && CurrentId(t.eng).Some? && CurrentId(t.eng) != Some("")
    requires var e := After(w, s, evs).eng;
             RECIPE in e.current.value.artifacts && e.current.value.artifacts[RECIPE] != []
    ensures var e := After(w, s, evs).eng;
            var id := CurrentId(e);
            Compose(NamespaceScope(parse, cache, id, ArtifactOf(e, id.value, RECIPE)).0, ReadAttribution(e)).namespaces
            == parse(e.current.value.artifacts[RECIPE])
  {
    ArtifactIsRecipe(w, c, s, evs, CurrentId(After(w, s, evs).eng).value);
  }

  // ---- what the observer makes of it ----

  /** The attribution is the current run's, and terminal exactly when that run is Done or Failed. */
  lemma AttributionTells(e: Eng)
    ensures var a := ReadAttribution(e);
            && a.cursor == e.cursor
            && (e.current.None? ==> a.runId == "" && !a.terminal)
            && (e.current.Some? ==>
                  var r := e.current.value;
                  a.runId == r.id && a.phase == r.phase && (a.terminal <==> r.state == Done || r.state == Failed))
  {
  }

  /** The scope as the observer takes it. */
  function Watching(sc: RunScope): ObserverSpec.Scope { ObserverSpec.Scope(sc.runId, sc.namespaces, sc.terminal) }

  /**
   * Whatever half the cache gave, with no run, or one that is Done or Failed, the observer's next
   * reconcile leaves nothing watched, recorded or open.
   */
  lemma OverIsUnwatched(half: Cache, e: Eng, steps: seq<ObserverRuns.Step>, after: ObserverSpec.Obs)
    requires e.current.None? || e.current.value.state == Done || e.current.value.state == Failed
    requires var sc := Watching(Compose(half, ReadAttribution(e)));
             ObserverSpec.Reconciled(ObserverRuns.Taken(ObserverRuns.NEW_WORLD, steps).o, after, sc)
    ensures var sc := Watching(Compose(half, ReadAttribution(e)));
            var w := ObserverRuns.Taken(ObserverRuns.NEW_WORLD, steps + [ObserverRuns.Rescoped(sc, after)]);
            w.o.entries == map[] && w.o.pods == map[] && w.o.events == map[] && w.open == {}
  {
    var sc := Watching(Compose(half, ReadAttribution(e)));
    assert sc.terminal || sc.runId == "";
    ObserverRuns.OverIsOver(steps, sc, after);
    ObserverRuns.ScopeIsExact(steps, sc, after);
    assert (steps + [ObserverRuns.Rescoped(sc, after)])[..|steps|] == steps;
  }

  /** And with a run in any other state, exactly the namespaces of its recipe are watched. */
  lemma UnderWayIsWatched(parse: Bytes -> set<string>, cache: Cache, w: Wiring, c: int, s: Sys, evs: seq<Event>,
                          steps: seq<ObserverRuns.Step>, after: ObserverSpec.Obs)
    requires RecipeBooked(w, c, s)
    requires var t := After(w, s, evs);
             CacheOk(parse, cache, t.h) && CurrentId(t.eng).Some? && CurrentId(t.eng) != Some("")
    requires var r := After(w, s, evs).eng.current.value;
             && r.state != Done && r.state != Failed && RECIPE in r.artifacts && r.artifacts[RECIPE] != []
             && parse(r.artifacts[RECIPE]) != {}
    requires var e := After(w, s, evs).eng;
             var half := NamespaceScope(parse, cache, CurrentId(e), ArtifactOf(e, CurrentId(e).value, RECIPE)).0;
             ObserverSpec.Reconciled(ObserverRuns.Taken(ObserverRuns.NEW_WORLD, steps).o, after,
               Watching(Compose(half, ReadAttribution(e))))
    ensures after.entries.Keys == parse(After(w, s, evs).eng.current.value.artifacts[RECIPE])
    ensures after.runId == After(w, s, evs).eng.current.value.id
  {
    var e := After(w, s, evs).eng;
    var half := NamespaceScope(parse, cache, CurrentId(e), ArtifactOf(e, CurrentId(e).value, RECIPE)).0;
    ScopeIsRecomputed(parse, cache, w, c, s, evs);
    ObserverRuns.ScopeIsExact(steps, Watching(Compose(half, ReadAttribution(e))), after);
  }

  lemma {:induction false} AlwaysPoints(w: Wiring, s: Sys, evs: seq<Event>)
    requires Booted(s) && s.eng.cursor.action == ""
    ensures CursorOk(w, After(w, s, evs))
  {
    if evs == [] {
    } else {
      AlwaysPoints(w, s, evs[..|evs| - 1]);
      Always(w, s, evs[..|evs| - 1]);
      NextPoints(w, After(w, s, evs[..|evs| - 1]), evs[|evs| - 1]);
    }
  }

  /** A component is only ever named while the run's own goroutine is inside its Apply step. */
  lemma ComponentMeansApply(w: Wiring, s: Sys, evs: seq<Event>)
    requires Booted(s) && s.eng.cursor.action == "" && ReadAttribution(After(w, s, evs).eng).cursor.action != ""
    ensures Applying(w, After(w, s, evs)) && !ReadAttribution(After(w, s, evs).eng).terminal
  {
    AlwaysPoints(w, s, evs);
  }
}
