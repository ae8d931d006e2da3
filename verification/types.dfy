/**
 The App custom resource: Kubernetes type and object metadata, the
 user-owned spec, and the controller-owned status.
 */
module Types {

  /** A state is a free string in the store; the empty string means "never reconciled". */
  type AppState = string

  const Unset: AppState := ""
  const Created: AppState := "Created"
  const InvalidType: AppState := "Invalid App Type"
  const Failed: AppState := "Failed"
  const Processed: AppState := "Processed"

  datatype TypeMeta = TypeMeta(kind: string, apiVersion: string)

  /** The identity part of the object metadata; the store addresses objects by name and namespace. */
  datatype ObjectMeta = ObjectMeta(name: string, namespace: string, resourceVersion: string, selfLink: string)

  /** What the user asks for: a workload name and a workload type. */
  datatype AppSpec = AppSpec(name: string, appType: string)

  /** What the controller observed. */
  datatype AppStatus = AppStatus(state: AppState, message: string)

  datatype App = App(typeMeta: TypeMeta, meta: ObjectMeta, spec: AppSpec, status: AppStatus)

  /** The four named states, in the order they are declared. */
  function NamedStates(): (s: seq<AppState>)
    ensures |s| == 4
    ensures forall i, j :: 0 <= i < j < |s| ==> s[i] != s[j]
    ensures forall i :: 0 <= i < |s| ==> s[i] != Unset
    ensures Created in s && InvalidType in s && Failed in s && Processed in s
  {
    [Created, InvalidType, Failed, Processed]
  }

  /** An object counts as reconciled as soon as its state is any non-empty string. */
  predicate Reconciled(s: AppStatus)
  {
    s.state != Unset
  }

  /** The states the add handler can write. */
  predicate Terminal(state: AppState)
  {
    state == InvalidType || state == Failed || state == Processed
  }

  /** Every state the add handler writes is reconciled, so a written object is never acted on again. */
  lemma TerminalIsReconciled(s: AppStatus)
    requires Terminal(s.state)
    ensures Reconciled(s)
  {
  }

  /**
   "Created" is a named state the controller never writes, yet an object
   already in it passes for reconciled.
   */
  lemma CreatedIsReconciledButNotTerminal(message: string)
    ensures Reconciled(AppStatus(Created, message))
    ensures !Terminal(Created)
  {
  }
}
