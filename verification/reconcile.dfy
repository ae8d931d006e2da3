/**
 Properties of the handlers across calls: the status state machine they
 follow, idempotence when an already processed object reaches the add
 handler again (a fresh informer lists every existing object as added when
 the controller starts), and what a run of repeated Add deliveries of one
 object can do.
 */
module Reconcile {
  import opened Wrappers
  import opened Types
  import opened Helm
  import opened Controller

  /** The only transitions the controller makes: from the empty state to one it can write. */
  predicate LegalTransition(from: AppState, to: AppState)
  {
    from == Unset && Terminal(to)
  }

  /** Every status the add handler writes is a legal transition from the cached object's state. */
  lemma AddMakesLegalTransition(item: App, helm: HelmResult)
    ensures OnAdd(item, helm).put.Some? <==> item.status.state == Unset
    ensures OnAdd(item, helm).put.Some? ==>
      LegalTransition(item.status.state, OnAdd(item, helm).put.value.body.status.state)
  {
  }

  /**
   The object the add handler writes, when it reaches the add handler again
   (a restarted controller lists it as added), triggers nothing: no helm,
   no PUT.
   */
  lemma RedeliveryIsNoop(item: App, first: HelmResult, again: HelmResult)
    requires OnAdd(item, first).put.Some?
    ensures OnAdd(OnAdd(item, first).put.value.body, again) == NoReaction
  {
  }

  /** The exact argument vectors helm gets for the two known workload types. */
  lemma InstallArgumentVectors(item: App, helm: HelmResult)
    requires item.status.state == Unset
    ensures item.spec.appType == "drupal" ==>
      OnAdd(item, helm).commands == [Command(HelmProgram,
        ["install", "--name=" + item.meta.name, "--set", "", "stable/drupal"])]
    ensures item.spec.appType == "wordpress" ==>
      OnAdd(item, helm).commands == [Command(HelmProgram,
        ["install", "--name=" + item.meta.name, "--set", "wordpressBlogName=" + item.spec.name, "stable/wordpress"])]
    ensures item.spec.appType !in KnownTypes ==> OnAdd(item, helm).commands == []
  {
  }

  /** The delete handler looks at the workload name only: not at the status, nor at what helm returns. */
  lemma OnDeleteIgnoresStatus(a: App, b: App, h1: HelmResult, h2: HelmResult)
    requires a.spec.name == b.spec.name
    ensures OnDelete(a, h1) == OnDelete(b, h2)
  {
  }

  /**
   Install names its release after the object, delete after the spec's
   workload name: deleting an object removes the release its add installed
   exactly when the two names agree.
   */
  lemma ReleaseRoundTrip(item: App, helm: HelmResult, onDelete: HelmResult)
    requires item.status.state == Unset && item.spec.appType in KnownTypes
    ensures |OnAdd(item, helm).commands| == 1
    ensures ReleaseOf(OnAdd(item, helm).commands[0]) == ReleaseOf(OnDelete(item, onDelete).commands[0])
        <==> item.meta.name == item.spec.name
  {
  }

  /**
   Helm release names are one global namespace: the release name carries
   no namespace, so two fresh Apps of a known type with the same object
   name in different namespaces install the same release.
   */
  lemma ReleaseNameIgnoresNamespace(a: App, b: App, ha: HelmResult, hb: HelmResult)
    requires a.status.state == Unset && a.spec.appType in KnownTypes
    requires b.status.state == Unset && b.spec.appType in KnownTypes
    requires a.meta.name == b.meta.name
    ensures |OnAdd(a, ha).commands| == 1 && |OnAdd(b, hb).commands| == 1
    ensures ReleaseOf(OnAdd(a, ha).commands[0]) == ReleaseOf(OnAdd(b, hb).commands[0])
  {
  }

  /**
   Deleting one App removes whatever release bears its workload name, which
   may be the release another App installed under its object name.
   */
  lemma DeleteCanReachOtherRelease(a: App, b: App, ha: HelmResult, hb: HelmResult)
    requires b.status.state == Unset && b.spec.appType in KnownTypes
    requires a.spec.name == b.meta.name
    ensures |OnAdd(b, hb).commands| == 1
    ensures ReleaseOf(OnDelete(a, ha).commands[0]) == ReleaseOf(OnAdd(b, hb).commands[0])
  {
  }

  /** One Add delivery: what helm returns if it runs, and whether the store accepts the PUT. */
  datatype Delivery = Delivery(helm: HelmResult, putAccepted: bool)

  /** The cached object after a run of deliveries, and every helm command issued on the way. */
  datatype Trace = Trace(cached: App, commands: seq<Command>)

  /**
   Delivers the same object to the add handler once per delivery, as each
   controller start lists it as added; an accepted PUT replaces the stored
   object that the next delivery sees, a rejected one leaves it as it was.
   */
  function ReplayAdds(item: App, ds: seq<Delivery>): (t: Trace)
    ensures t.cached.typeMeta == item.typeMeta && t.cached.meta == item.meta && t.cached.spec == item.spec
    ensures Reconciled(item.status) ==> t == Trace(item, [])
    ensures t.cached.status == item.status || LegalTransition(item.status.state, t.cached.status.state)
    decreases |ds|
  {
    if ds == [] then
      Trace(item, [])
    else
      var react := OnAdd(item, ds[0].helm);
      var next := if react.put.Some? && ds[0].putAccepted then react.put.value.body else item;
      var rest := ReplayAdds(next, ds[1..]);
      Trace(rest.cached, react.commands + rest.commands)
  }

  function RejectedPuts(ds: seq<Delivery>): nat
  {
    if ds == [] then 0 else (if ds[0].putAccepted then 0 else 1) + RejectedPuts(ds[1..])
  }

  /**
   Helm runs at most once per delivery that found the object unreconciled:
   once, plus once more for every PUT the store rejected.
   */
  lemma {:induction false} InstallsBoundedByRejectedPuts(item: App, ds: seq<Delivery>)
    ensures |ReplayAdds(item, ds).commands| <= 1 + RejectedPuts(ds)
    decreases |ds|
  {
    if ds != [] {
      var react := OnAdd(item, ds[0].helm);
      var next := if react.put.Some? && ds[0].putAccepted then react.put.value.body else item;
      InstallsBoundedByRejectedPuts(next, ds[1..]);
      if react.put.Some? && ds[0].putAccepted {
        RedeliveryIsNoop(item, ds[0].helm, ds[0].helm);
        assert ReplayAdds(next, ds[1..]).commands == [];
      }
    }
  }

  /** When the store accepts every write, helm runs at most once however often the object is delivered. */
  lemma {:induction false} InstallAtMostOnce(item: App, ds: seq<Delivery>)
    requires forall i :: 0 <= i < |ds| ==> ds[i].putAccepted
    ensures |ReplayAdds(item, ds).commands| <= 1
  {
    NoRejectedPuts(ds);
    InstallsBoundedByRejectedPuts(item, ds);
  }

  /** A run in which every PUT is accepted has no rejected PUT to count. */
  lemma {:induction false} NoRejectedPuts(ds: seq<Delivery>)
    requires forall i :: 0 <= i < |ds| ==> ds[i].putAccepted
    ensures RejectedPuts(ds) == 0
    decreases |ds|
  {
    if ds != [] {
      NoRejectedPuts(ds[1..]);
    }
  }
}
