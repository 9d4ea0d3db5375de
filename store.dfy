/** The client-side cookbook store: the generation state, the list of the
    user's cookbooks, the actions that overwrite them, and the projection that
    is persisted. */
module LeadMagnetStore {
  import opened Wrappers
  import opened Seqs
  import opened Types

  /** `Partial<Cookbook>`: every key may be absent (`None`). */
  datatype PartialCookbook = PartialCookbook(
    id: Option<string>,
    userId: Option<string>,
    title: Option<string>,
    subtitle: Option<string>,
    description: Option<string>,
    cookbookType: Option<CookbookType>,
    content: Option<string>,
    rawContent: Option<string>,
    targetAudience: Option<string>,
    problemSolved: Option<string>,
    niche: Option<string>,
    tone: Option<Tone>,
    length: Option<Length>,
    prompt: Option<string>,
    design: Option<CookbookDesign>,
    status: Option<CookbookStatus>,
    wordCount: Option<int>,
    itemCount: Option<int>,
    createdAt: Option<Date>,
    updatedAt: Option<Date>,
    generatedAt: Option<Date>,
    exportedFormats: Option<seq<Format>>,
    downloadCount: Option<int>)

  /** The partial record with no key present, `{}`. */
  const NoUpdates: PartialCookbook := PartialCookbook(
    None, None, None, None, None, None, None, None, None, None, None, None,
    None, None, None, None, None, None, None, None, None, None, None)

  /** `{ ...a, ...u }` on two partial records: each key of `u` that is present
      wins, every other key keeps its value from `a`. */
  function Override(a: PartialCookbook, u: PartialCookbook): PartialCookbook {
    PartialCookbook(
      a.id.Or(u.id), a.userId.Or(u.userId), a.title.Or(u.title), a.subtitle.Or(u.subtitle),
      a.description.Or(u.description), a.cookbookType.Or(u.cookbookType), a.content.Or(u.content),
      a.rawContent.Or(u.rawContent), a.targetAudience.Or(u.targetAudience),
      a.problemSolved.Or(u.problemSolved), a.niche.Or(u.niche), a.tone.Or(u.tone),
      a.length.Or(u.length), a.prompt.Or(u.prompt), a.design.Or(u.design), a.status.Or(u.status),
      a.wordCount.Or(u.wordCount), a.itemCount.Or(u.itemCount), a.createdAt.Or(u.createdAt),
      a.updatedAt.Or(u.updatedAt), a.generatedAt.Or(u.generatedAt),
      a.exportedFormats.Or(u.exportedFormats), a.downloadCount.Or(u.downloadCount))
  }

  /** The new value of `current` after `updateCurrent(u)`: `u` itself when
      there is no current cookbook, otherwise the current one overridden by `u`. */
  function MergeCurrent(current: Option<PartialCookbook>, u: PartialCookbook): (r: PartialCookbook)
    ensures current.None? ==> r == u
    ensures current.Some? ==> r == Override(current.value, u)
  {
    match current
    case None => u
    case Some(c) => Override(c, u)
  }

  /** The full record as a partial one with every key present. */
  function AsPartial(cb: Cookbook): PartialCookbook {
    PartialCookbook(
      Some(cb.id), Some(cb.userId), Some(cb.title), cb.subtitle, cb.description,
      Some(cb.cookbookType), Some(cb.content), cb.rawContent, cb.targetAudience,
      cb.problemSolved, cb.niche, Some(cb.tone), Some(cb.length), cb.prompt, Some(cb.design),
      Some(cb.status), Some(cb.wordCount), cb.itemCount, Some(cb.createdAt), Some(cb.updatedAt),
      cb.generatedAt, cb.exportedFormats, Some(cb.downloadCount))
  }

  /** `{ ...cb, ...u, updatedAt: now }`: the cookbook overridden by the keys
      present in `u`, stamped with the time of the update. */
  function ApplyUpdates(cb: Cookbook, u: PartialCookbook, now: Date): (r: Cookbook)
    ensures r.updatedAt == now
    ensures AsPartial(r) == Override(Override(AsPartial(cb), u), NoUpdates.(updatedAt := Some(now)))
  {
    Cookbook(
      u.id.GetOr(cb.id), u.userId.GetOr(cb.userId), u.title.GetOr(cb.title),
      cb.subtitle.Or(u.subtitle), cb.description.Or(u.description),
      u.cookbookType.GetOr(cb.cookbookType), u.content.GetOr(cb.content),
      cb.rawContent.Or(u.rawContent), cb.targetAudience.Or(u.targetAudience),
      cb.problemSolved.Or(u.problemSolved), cb.niche.Or(u.niche),
      u.tone.GetOr(cb.tone), u.length.GetOr(cb.length), cb.prompt.Or(u.prompt),
      u.design.GetOr(cb.design), u.status.GetOr(cb.status), u.wordCount.GetOr(cb.wordCount),
      cb.itemCount.Or(u.itemCount), u.createdAt.GetOr(cb.createdAt), now,
      cb.generatedAt.Or(u.generatedAt), cb.exportedFormats.Or(u.exportedFormats),
      u.downloadCount.GetOr(cb.downloadCount))
  }

  /** `state.cookbooks.map(cb => cb.id === id ? { ...cb, ...u, updatedAt: now } : cb)`. */
  function UpdateMatching(l: seq<Cookbook>, id: string, u: PartialCookbook, now: Date): (r: seq<Cookbook>)
    ensures |r| == |l|
    ensures forall i :: 0 <= i < |l| ==>
      r[i] == if l[i].id == id then ApplyUpdates(l[i], u, now) else l[i]
    decreases |l|
  {
    if l == [] then []
    else [if l[0].id == id then ApplyUpdates(l[0], u, now) else l[0]] + UpdateMatching(l[1..], id, u, now)
  }

  /** `state.cookbooks.filter(cb => cb.id !== id)`. */
  function RemoveMatching(l: seq<Cookbook>, id: string): seq<Cookbook> {
    Filter(l, (cb: Cookbook) => cb.id != id)
  }

  /** The store's data fields, as one value. */
  datatype StoreState = StoreState(
    current: Option<PartialCookbook>,
    isGenerating: bool,
    generationProgress: real,
    generationMessage: string,
    cookbooks: seq<Cookbook>,
    isLoading: bool)

  /** `initialState`. */
  const InitialState: StoreState := StoreState(None, false, 0.0, "", [], false)

  /** What is written to storage: the `partialize` projection. */
  datatype Persisted = Persisted(cookbooks: seq<Cookbook>)

  /** `partialize`: only the cookbooks are persisted. */
  function Partialize(s: StoreState): (p: Persisted)
    ensures p.cookbooks == s.cookbooks
  {
    Persisted(s.cookbooks)
  }

  /** Rehydration merges the stored projection over the initial state. */
  function Rehydrate(p: Persisted): (s: StoreState)
    ensures s.cookbooks == p.cookbooks
    ensures s.(cookbooks := []) == InitialState
  {
    InitialState.(cookbooks := p.cookbooks)
  }

  /** The store object. Every action overwrites some of its fields; the
      postconditions give the whole new state in terms of the old one. */
  class CookbookStore {
    var current: Option<PartialCookbook>
    var isGenerating: bool
    var generationProgress: real
    var generationMessage: string
    var cookbooks: seq<Cookbook>
    var isLoading: bool

    function State(): StoreState
      reads this
    {
      StoreState(current, isGenerating, generationProgress, generationMessage, cookbooks, isLoading)
    }

    /** A fresh store holds `initialState`. */
    constructor ()
      ensures State() == InitialState
    {
      current := None;
      isGenerating := false;
      generationProgress := 0.0;
      generationMessage := "";
      cookbooks := [];
      isLoading := false;
    }

    /** A store restored from storage: the initial state with the stored cookbooks. */
    constructor Restored(p: Persisted)
      ensures State() == Rehydrate(p)
    {
      current := None;
      isGenerating := false;
      generationProgress := 0.0;
      generationMessage := "";
      cookbooks := p.cookbooks;
      isLoading := false;
    }

    /** `setCurrent(cookbook)`. */
    method SetCurrent(cookbook: Option<PartialCookbook>)
      modifies this
      ensures State() == old(State()).(current := cookbook)
    {
      current := cookbook;
    }

    /** `updateCurrent(updates)`. */
    method UpdateCurrent(updates: PartialCookbook)
      modifies this
      ensures State() == old(State()).(current := Some(MergeCurrent(old(current), updates)))
    {
      current := Some(MergeCurrent(current, updates));
    }

    /** `setGenerating(isGenerating, message = '')`: starting a generation
        resets the progress to zero; stopping one keeps it. */
    method SetGenerating(generating: bool, message: string := "")
      modifies this
      ensures State() == old(State()).(
        isGenerating := generating,
        generationMessage := message,
        generationProgress := if generating then 0.0 else old(generationProgress))
    {
      isGenerating := generating;
      generationMessage := message;
      generationProgress := if generating then 0.0 else generationProgress;
    }

    /** `setProgress(progress)`. */
    method SetProgress(progress: real)
      modifies this
      ensures State() == old(State()).(generationProgress := progress)
    {
      generationProgress := progress;
    }

    /** `setCookbooks(cookbooks)`: also marks loading as finished. */
    method SetCookbooks(list: seq<Cookbook>)
      modifies this
      ensures State() == old(State()).(cookbooks := list, isLoading := false)
    {
      cookbooks := list;
      isLoading := false;
    }

    /** `addCookbook(cookbook)`: the new cookbook goes in front. */
    method AddCookbook(cookbook: Cookbook)
      modifies this
      ensures State() == old(State()).(cookbooks := [cookbook] + old(cookbooks))
      ensures |cookbooks| == |old(cookbooks)| + 1 && cookbooks[0] == cookbook && cookbooks[1..] == old(cookbooks)
    {
      cookbooks := [cookbook] + cookbooks;
    }

    /** `updateCookbook(id, updates)`, with `now` for `new Date()`. */
    method UpdateCookbook(id: string, updates: PartialCookbook, now: Date)
      modifies this
      ensures State() == old(State()).(cookbooks := UpdateMatching(old(cookbooks), id, updates, now))
    {
      cookbooks := UpdateMatching(cookbooks, id, updates, now);
    }

    /** `removeCookbook(id)`. */
    method RemoveCookbook(id: string)
      modifies this
      ensures State() == old(State()).(cookbooks := RemoveMatching(old(cookbooks), id))
    {
      cookbooks := RemoveMatching(cookbooks, id);
    }

    /** `reset()`: back to `initialState`, cookbooks included. */
    method Reset()
      modifies this
      ensures State() == InitialState
    {
      current := None;
      isGenerating := false;
      generationProgress := 0.0;
      generationMessage := "";
      cookbooks := [];
      isLoading := false;
    }

    /** The value the persistence layer writes for the current state. */
    method Persist() returns (p: Persisted)
      ensures p == Partialize(State())
      ensures p.cookbooks == cookbooks
    {
      p := Persisted(cookbooks);
    }
  }

  // ---- Properties of the list updates ----

  /** After `removeCookbook(id)` no cookbook has that id. */
  lemma RemoveLeavesNoMatch(l: seq<Cookbook>, id: string)
    ensures forall cb :: cb in RemoveMatching(l, id) ==> cb.id != id
  {
    forall cb | cb in RemoveMatching(l, id) ensures cb.id != id {
      FilterMembership(l, (c: Cookbook) => c.id != id, cb);
    }
  }

  /** ... every other cookbook is kept, as often as before and in its order ... */
  lemma RemoveKeepsOthers(l: seq<Cookbook>, id: string)
    ensures IsSubseq(RemoveMatching(l, id), l)
    ensures forall cb: Cookbook :: cb.id != id ==> multiset(RemoveMatching(l, id))[cb] == multiset(l)[cb]
  {
    FilterSpec(l, (c: Cookbook) => c.id != id);
  }

  /** ... and removing twice is removing once. */
  lemma RemoveIdempotent(l: seq<Cookbook>, id: string)
    ensures RemoveMatching(RemoveMatching(l, id), id) == RemoveMatching(l, id)
  {
    FilterIdempotent(l, (c: Cookbook) => c.id != id);
  }

  /** Removing an id that no cookbook has changes nothing. */
  lemma RemoveAbsent(l: seq<Cookbook>, id: string)
    requires forall i :: 0 <= i < |l| ==> l[i].id != id
    ensures RemoveMatching(l, id) == l
  {
    FilterKeepsAll(l, (c: Cookbook) => c.id != id);
  }

  /** Updating an id that no cookbook has changes nothing. */
  lemma UpdateAbsent(l: seq<Cookbook>, id: string, u: PartialCookbook, now: Date)
    requires forall i :: 0 <= i < |l| ==> l[i].id != id
    ensures UpdateMatching(l, id, u, now) == l
  {
  }

  /** Applying two updates in turn is applying their merge: the second update's
      keys win, and the later timestamp is kept. */
  lemma ApplyUpdatesCompose(cb: Cookbook, u1: PartialCookbook, u2: PartialCookbook, t1: Date, t2: Date)
    ensures ApplyUpdates(ApplyUpdates(cb, u1, t1), u2, t2) == ApplyUpdates(cb, Override(u1, u2), t2)
  {
  }

  /** An empty partial changes nothing but the timestamp. */
  lemma ApplyNoUpdates(cb: Cookbook, now: Date)
    ensures ApplyUpdates(cb, NoUpdates, now) == cb.(updatedAt := now)
  {
  }

  /** `{}` is a neutral element of the merge, and the merge is associative,
      so successive `updateCurrent` calls accumulate. */
  lemma OverrideLaws(a: PartialCookbook, b: PartialCookbook, c: PartialCookbook)
    ensures Override(a, NoUpdates) == a && Override(NoUpdates, a) == a
    ensures Override(Override(a, b), c) == Override(a, Override(b, c))
  {
  }

  /** Two `updateCurrent` calls equal one with the merged update. */
  lemma MergeCurrentTwice(current: Option<PartialCookbook>, u1: PartialCookbook, u2: PartialCookbook)
    ensures MergeCurrent(Some(MergeCurrent(current, u1)), u2) == MergeCurrent(current, Override(u1, u2))
  {
    OverrideLaws(if current.Some? then current.value else NoUpdates, u1, u2);
  }

  /** Persisting the rehydrated state gives back what was stored. */
  lemma PersistRehydrate(p: Persisted)
    ensures Partialize(Rehydrate(p)) == p
  {
  }

  /** Only the cookbooks survive a persist-and-restore round trip. */
  lemma RehydratePersist(s: StoreState)
    ensures Rehydrate(Partialize(s)) == InitialState.(cookbooks := s.cookbooks)
    ensures Rehydrate(Partialize(s)) == s <==> s.(cookbooks := []) == InitialState
  {
  }
}
