# App controller reconciliation, modelled in Dafny

The controller watches `App` custom resources in a Kubernetes cluster. When an
App is added it installs a helm chart for the App's workload type and writes
the outcome into the App's status. When an App is deleted it runs
`helm delete` on the App's workload name. This project models those two
handlers as pure functions and proves what they do.

The model has six modules:

- `Types` (types.go). It holds `App` with its type metadata, object metadata,
  `AppSpec` (name, type) and `AppStatus` (state, message). It also holds the
  four named `AppState` constants and the empty "unset" state.
- `Helm`. It holds the helm argument vectors for install and delete, and
  `ReleaseOf`, which reads the release name back out of a command. What helm
  returns is an oracle input: `Succeeded(output)` or
  `Errored(errText, output)`.
- `Controller` (controller.go). It holds `Classify` (workload type to chart
  and `--set` value), `OnAdd`, `OnDelete` and `Dispatch`. Each handler maps
  the cached App and the helm result to a `Reaction`. `Dispatch` routes
  informer notifications to the handlers the source registers.
  `DispatchCorrected` does the same with the corrected delete handler (see
  "## Findings"). A Reaction is the helm
  commands issued plus the PUT issued, if any. The PUT is an emitted effect
  addressed by resource, name and namespace.
- `Reconcile`. It holds properties across calls: the status state machine,
  and idempotence when an already processed object reaches the add handler
  again. That happens when the controller restarts, because a fresh informer
  lists every existing object as added. The handler's own status write does
  not reach the add handler: the informer reports it as an update, and no
  update handler is registered. The module also holds a replay of repeated
  Add deliveries of one object, in which each PUT may be accepted or rejected
  by the store.
- `Wrappers`. It holds `Option`.
- `Strings`. It holds the prefix and suffix tests that `Helm` and
  `Controller` share.

Values are immutable, so the cached App can never be mutated. The copy the
source makes before editing is the record update `item.(status := …)`.

Install names the helm release after the object's metadata name. Delete
names it after `Spec.Name`. `Reconcile.ReleaseRoundTrip` proves that deleting
an App removes the release its add installed exactly when the two names are
equal. Release names also carry no namespace, so helm's releases are one
namespace shared by all Apps: `Reconcile.ReleaseNameIgnoresNamespace` and
`Reconcile.DeleteCanReachOtherRelease` show how two Apps meet there.

## Model

| member | source | states |
|---|---|---|
| `Types.NamedStates` | types.go:30-39 | The four named states Created, Invalid App Type, Failed and Processed are pairwise distinct, and none is the empty string |
| `Types.TerminalIsReconciled` | types.go:33-38 | Every state the add handler can write is non-empty, so it passes the reconciled test of the guard |
| `Types.CreatedIsReconciledButNotTerminal` | types.go:31-32 | "Created" is not the empty state, so the guard treats an App already in it as reconciled, yet it is not a state the handler writes |
| `Helm.Install` | controller.go:106-113 | The install command runs helm with five arguments: "install", then a name flag from which the instance is read back, then "--set", then the set value, then the chart |
| `Helm.Delete` | controller.go:168-172 | The delete command runs helm with two arguments: "delete" and the release, which is read back as the release it acts on |
| `Controller.Classify` | controller.go:91-103 | A chart is found exactly for "drupal" and "wordpress", and it is "stable/" followed by the type. Drupal gets an empty set value. Wordpress gets a set value that starts with "wordpressBlogName=", ends with the spec's name, and is exactly as long as the two together |
| `Controller.InstallStatus` | controller.go:117-128 | A helm failure gives Failed. Its message starts with the error text and ": ", ends with helm's output, and is exactly as long as the three together, so it is their concatenation. Success gives Processed with "App processed successfully" |
| `Controller.OnAdd` | controller.go:70-145 | A non-empty state means no command and no PUT. Otherwise: at most one helm command, issued exactly when the type is known, and it is the install of the classified chart under the object's name. A PUT is always issued, to "apps" under the cached object's name and namespace. Its body equals the cached App except in status. The written status is InvalidType with its fixed message for an unknown type, and otherwise the helm outcome |
| `Controller.OnDelete` | controller.go:165-181 | Exactly one helm command, a delete of the spec's workload name, and never a status write |
| `Controller.OnDeleteAsWritten` | controller.go:161-166 | The handler as written panics exactly when the notification is a tombstone, and otherwise deletes like OnDelete |
| `Controller.TombstonePanics` | controller.go:161-166 | On a tombstone carrying a last known App, the handler as written panics, so no helm command runs. The corrected handler issues exactly the delete of that App's workload name |
| `Controller.OnDeleteObject` | controller.go:165-178 | The corrected handler never writes a status. When the notification carries an object, either the final state or a tombstone's last known App, it deletes exactly that object's workload name. A tombstone without an object gets no command, since there is no workload name to delete. A final state always gets exactly one command |
| `Controller.OnDeleteObjectAgrees` | controller.go:165-178 | Wherever the handler as written returns, the corrected handler gives the same reaction |
| `Controller.Dispatch` | controller.go:55-59 | Added goes to the add handler. Updated does nothing, because no update handler is registered. Deleted goes to the delete handler as written: a tombstone panics, and a final state gets exactly the delete of its workload name with no status write |
| `Controller.DispatchCorrected` | controller.go:55-59 | The same routing with the corrected delete handler. A Deleted notification never gets a status write. It gets exactly the delete of the last known workload name when it carries an object, and no command when it is a tombstone without one |
| `Controller.DispatchCorrectedAgrees` | controller.go:55-59 | The registered routing panics exactly on a tombstone. Wherever it returns, it gives the same reaction as the corrected routing |
| `Reconcile.AddMakesLegalTransition` | controller.go:75-129 | The add handler writes exactly when the cached state is empty, and it moves from empty to InvalidType, Failed or Processed |
| `Reconcile.RedeliveryIsNoop` | controller.go:67-75 | When the object the add handler wrote reaches the add handler again, as a restarted controller lists it, no helm command and no PUT is issued, whatever helm would return |
| `Reconcile.InstallArgumentVectors` | controller.go:91-113 | The exact argument vectors. Drupal: install, --name=<object name>, --set, "", stable/drupal. Wordpress: install, --name=<object name>, --set, wordpressBlogName=<spec name>, stable/wordpress. Any other type: no command |
| `Reconcile.OnDeleteIgnoresStatus` | controller.go:165-172 | Two Apps with the same workload name get the same delete reaction, whatever their status and whatever helm returns |
| `Reconcile.ReleaseRoundTrip` | controller.go:106-172 | For a fresh App of a known type, the install and the delete act on the same release exactly when the object name equals the spec's workload name |
| `Reconcile.ReleaseNameIgnoresNamespace` | controller.go:106-113 | Two fresh Apps of a known type with the same object name install the same helm release, whatever their namespaces |
| `Reconcile.DeleteCanReachOtherRelease` | controller.go:106-172 | Deleting an App acts on the release that another fresh App of a known type installs, whenever the first App's workload name equals the second's object name |
| `Reconcile.ReplayAdds` | controller.go:70-145 | Over any run of Add deliveries, the stored object keeps its metadata and spec. An already reconciled object causes no command and no change. Its status either stays as it was or makes one legal transition |
| `Reconcile.InstallsBoundedByRejectedPuts` | controller.go:131-141 | Over any run of Add deliveries, helm runs at most once more than the number of PUTs the store rejected |
| `Reconcile.InstallAtMostOnce` | controller.go:73-75 | When the store accepts every PUT, helm runs at most once however often the object is delivered |

## Left out

- `Run` and `watch` (controller.go:23-65): the informer, list-watch, resync period and context cancellation are client-go machinery and concurrency. `Dispatch` keeps only the handler registration.
- `onUpdate` (controller.go:154-159): it is not registered and only prints. `Dispatch` drops Updated notifications.
- The failure branch of `AppScheme.Copy` (controller.go:79-84): it depends on the runtime scheme. After printing, it type-asserts the nil copy, which panics. The model's copy always succeeds.
- Process execution, the REST transport and all printing: helm's result is an oracle input. The PUT is an emitted effect whose success is decided outside the handler. A rejected PUT is only printed by the source.
- `Controller.OnAdd`: does not model the store's optimistic-concurrency check on the resource version. The PUT body carries the cached resource version unchanged.
- `AppList` (types.go:42-46), main.go and cmd/client.go: the observability poll, flag parsing, config discovery and scheme registration are bootstrap and I/O.
- `Reconcile.ReplayAdds`: covers Add deliveries of one object. Interleavings across objects are left out. Objects interact only through helm's global release names, and the helm oracle does not track which releases exist. The store assigns a new resource version on every accepted update; the replay stores the PUT body verbatim, so its "metadata kept" holds for the name and namespace but not for the resource version the real store would hold.

## Findings

| source | as written | input that shows it | evidently intended | confidence | as-written member | corrected member |
|---|---|---|---|---|---|---|
| controller.go:161-166 | The delete handler asserts that every notification is an `*App`. The comment above it says a `DeletedFinalStateUnknown` tombstone can arrive instead | The watch misses a delete, and the next re-list delivers `DeletedFinalStateUnknown{Key: "default/blog1", Obj: <last known App>}`. The type assertion panics, and `helm delete` never runs | Unwrap the tombstone and deprovision its last known App, if it carries one | medium (not executed) | `Controller.OnDeleteAsWritten` | `Controller.OnDeleteObject` |
