/**
 The add and delete handlers of the App controller. Each handler is a pure
 function from the cached object (and what helm returned) to a Reaction:
 the helm commands it runs, in order, and the PUT it issues, if any.
 */
module Controller {
  import opened Wrappers
  import opened Types
  import opened Helm
  import opened Strings

  /** The helm chart for a workload type and the value passed after `--set`. */
  datatype Chart = Chart(chart: string, setArg: string)

  const KnownTypes: set<string> := {"drupal", "wordpress"}

  const AppsResource := "apps"
  const InvalidTypeMessage := "Invalid App Type provided"
  const SuccessMessage := "App processed successfully"

  /** A PUT of `body` to the App resource addressed by name and namespace. */
  datatype Put = Put(resource: string, name: string, namespace: string, body: App)

  datatype Reaction = Reaction(commands: seq<Command>, put: Option<Put>)

  const NoReaction := Reaction([], None)

  /** Maps a known workload type to its chart; every chart is the type's name under `stable/`. */
  function Classify(spec: AppSpec): (r: Option<Chart>)
    ensures r.Some? <==> spec.appType in KnownTypes
    ensures r.Some? ==> r.value.chart == "stable/" + spec.appType
    ensures spec.appType == "drupal" ==> r.Some? && r.value.setArg == ""
    ensures spec.appType == "wordpress" ==> r.Some? && StartsWith(r.value.setArg, "wordpressBlogName=")
    ensures spec.appType == "wordpress" ==> r.Some? && EndsWith(r.value.setArg, spec.name)
    ensures spec.appType == "wordpress" ==> r.Some? && |r.value.setArg| == |"wordpressBlogName="| + |spec.name|
  {
    if spec.appType == "drupal" then
      Some(Chart("stable/drupal", ""))
    else if spec.appType == "wordpress" then
      var arg := "wordpressBlogName=" + spec.name;
      assert arg[|arg| - |spec.name|..] == spec.name;
      Some(Chart("stable/wordpress", arg))
    else
      None
  }

  /** The status written after helm has run: Failed with its diagnostics, or Processed. */
  function InstallStatus(helm: HelmResult): (s: AppStatus)
    ensures helm.Succeeded? <==> s.state == Processed
    ensures helm.Errored? <==> s.state == Failed
    ensures helm.Succeeded? ==> s.message == SuccessMessage
    ensures helm.Errored? ==> StartsWith(s.message, helm.errText + ": ")
    ensures helm.Errored? ==> EndsWith(s.message, helm.output)
    ensures helm.Errored? ==> |s.message| == |helm.errText| + |": "| + |helm.output|
  {
    match helm
    case Succeeded(_) =>
      AppStatus(Processed, SuccessMessage)
    case Errored(errText, output) =>
      var m := errText + ": " + output;
      assert m[..|errText + ": "|] == errText + ": ";
      assert m[|m| - |output|..] == output;
      AppStatus(Failed, m)
  }

  /**
   The add handler. An object with a non-empty state is left alone. Otherwise
   a copy gets InvalidType when the type is unknown; when it is known, helm
   installs the chart under the object's name and the copy gets the outcome.
   Either way the copy is PUT back under the object's name and namespace.
   */
  function OnAdd(item: App, helm: HelmResult): (r: Reaction)
    // idempotence guard
    ensures Reconciled(item.status) ==> r == NoReaction
    ensures !Reconciled(item.status) ==> r.put.Some?
    // helm runs at most once, and only for a fresh object of a known type
    ensures |r.commands| <= 1
    ensures |r.commands| == 1 <==> !Reconciled(item.status) && item.spec.appType in KnownTypes
    ensures |r.commands| == 1 ==>
      var c := Classify(item.spec).value;
      r.commands[0] == Install(item.meta.name, c.setArg, c.chart)
    // the PUT: addressed like the cached object, differing from it in status only
    ensures r.put.Some? ==>
      var p := r.put.value;
      && p.resource == AppsResource
      && p.name == item.meta.name
      && p.namespace == item.meta.namespace
      && p.body == item.(status := p.body.status)
      && Terminal(p.body.status.state)
    // which status is written
    ensures r.put.Some? && item.spec.appType !in KnownTypes ==>
      r.put.value.body.status == AppStatus(InvalidType, InvalidTypeMessage)
    ensures r.put.Some? && item.spec.appType in KnownTypes ==>
      r.put.value.body.status == InstallStatus(helm)
  {
    if item.status.state != Unset then
      NoReaction
    else
      var chart := Classify(item.spec);
      var copy :=
        if chart.None? then item.(status := AppStatus(InvalidType, InvalidTypeMessage)) else item;
      var (commands, written) :=
        if copy.status.state != InvalidType then
          ([Install(item.meta.name, chart.value.setArg, chart.value.chart)],
           copy.(status := InstallStatus(helm)))
        else
          ([], copy);
      Reaction(commands, Some(Put(AppsResource, item.meta.name, item.meta.namespace, written)))
  }

  /**
   The delete handler: helm deletes the release named after the spec's
   workload name; its failure is only reported, and no status is written.
   */
  function OnDelete(item: App, helm: HelmResult): (r: Reaction)
    ensures |r.commands| == 1 && r.put.None?
    ensures r.commands[0].program == HelmProgram && |r.commands[0].args| == 2 && r.commands[0].args[0] == "delete"
    ensures ReleaseOf(r.commands[0]) == Some(item.spec.name)
  {
    Reaction([Delete(item.spec.name)], None)
  }

  /**
   What a delete notification carries: the object's final state, or, when
   the watch missed the delete and a re-list found the object gone, a
   tombstone holding its key and, when the cache still had it, the last
   known state.
   */
  datatype DeletedObject = FinalState(app: App) | FinalStateUnknown(key: string, lastKnown: Option<App>)

  /** The last known state of a deleted object, if the notification carries one. */
  function LastKnown(obj: DeletedObject): Option<App>
  {
    match obj
    case FinalState(a) => Some(a)
    case FinalStateUnknown(_, a) => a
  }

  /** A handler either returns or the process panics. */
  datatype Outcome = Panicked(reason: string) | Returned(reaction: Reaction)

  /**
   The delete handler as written: it asserts the notification is an App and
   so panics on a tombstone.
   */
  function OnDeleteAsWritten(obj: DeletedObject, helm: HelmResult): (r: Outcome)
    ensures r.Panicked? <==> obj.FinalStateUnknown?
    ensures r.Returned? ==> r.reaction == OnDelete(obj.app, helm)
  {
    match obj
    case FinalState(a) => Returned(OnDelete(a, helm))
    case FinalStateUnknown(_, _) => Panicked("interface conversion: not *App")
  }

  /**
   The delete handler with the tombstone unwrapped: it deletes the last
   known object's workload, and does nothing when there is no object to
   take a workload name from.
   */
  function OnDeleteObject(obj: DeletedObject, helm: HelmResult): (r: Reaction)
    ensures r.put.None?
    ensures LastKnown(obj).Some? ==> r.commands == [Delete(LastKnown(obj).value.spec.name)]
    ensures LastKnown(obj).None? ==> r.commands == []
    ensures obj.FinalState? ==> |r.commands| == 1
  {
    match LastKnown(obj)
    case Some(a) => OnDelete(a, helm)
    case None => NoReaction
  }

  /**
   On a tombstone the delete handler as written panics, so no helm command
   runs, while the corrected handler deletes the last known workload.
   */
  lemma TombstonePanics(key: string, lastKnown: App, helm: HelmResult)
    ensures OnDeleteAsWritten(FinalStateUnknown(key, Some(lastKnown)), helm).Panicked?
    ensures OnDeleteObject(FinalStateUnknown(key, Some(lastKnown)), helm).commands == [Delete(lastKnown.spec.name)]
  {
  }

  /** Wherever the handler as written returns, the corrected one does the same. */
  lemma OnDeleteObjectAgrees(obj: DeletedObject, helm: HelmResult)
    ensures OnDeleteAsWritten(obj, helm).Returned? ==>
      OnDeleteAsWritten(obj, helm).reaction == OnDeleteObject(obj, helm)
  {
  }

  /** A notification from the App informer. */
  datatype Event =
    | Added(app: App)
    | Updated(oldApp: App, newApp: App)
    | Deleted(obj: DeletedObject)

  /**
   Routes a notification to the registered handlers: add and delete are
   registered, update is not, so an update is dropped. The delete handler
   is the one as written, so a tombstone panics.
   */
  function Dispatch(ev: Event, helm: HelmResult): (r: Outcome)
    ensures ev.Updated? ==> r == Returned(NoReaction)
    ensures ev.Added? ==> r == Returned(OnAdd(ev.app, helm))
    ensures ev.Deleted? ==> (r.Panicked? <==> ev.obj.FinalStateUnknown?)
    ensures ev.Deleted? && r.Returned? ==>
      r.reaction.put.None? && r.reaction.commands == [Delete(ev.obj.app.spec.name)]
  {
    match ev
    case Added(a) => Returned(OnAdd(a, helm))
    case Updated(_, _) => Returned(NoReaction)
    case Deleted(obj) => OnDeleteAsWritten(obj, helm)
  }

  /** Routing with the corrected delete handler: every notification gets a reaction. */
  function DispatchCorrected(ev: Event, helm: HelmResult): (r: Reaction)
    ensures ev.Updated? ==> r == NoReaction
    ensures ev.Added? ==> r == OnAdd(ev.app, helm)
    ensures ev.Deleted? ==> r.put.None?
    ensures ev.Deleted? && LastKnown(ev.obj).Some? ==> r.commands == [Delete(LastKnown(ev.obj).value.spec.name)]
    ensures ev.Deleted? && LastKnown(ev.obj).None? ==> r.commands == []
  {
    match ev
    case Added(a) => OnAdd(a, helm)
    case Updated(_, _) => NoReaction
    case Deleted(obj) => OnDeleteObject(obj, helm)
  }

  /** The two routings differ only where the registered routing panics. */
  lemma DispatchCorrectedAgrees(ev: Event, helm: HelmResult)
    ensures Dispatch(ev, helm).Returned? ==> Dispatch(ev, helm).reaction == DispatchCorrected(ev, helm)
    ensures Dispatch(ev, helm).Panicked? <==> ev.Deleted? && ev.obj.FinalStateUnknown?
  {
  }
}
