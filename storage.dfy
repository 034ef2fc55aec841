/**
 * The browser's `localStorage` entry `wisecrew_apps`, which holds the list of
 * submitted applications, newest first. The entry is either absent or holds
 * a list; its JSON encoding is not modelled.
 */
module Storage {
  import opened Wrappers
  import opened Types

  /** The one storage entry the site uses. */
  class LocalStore {
    /** The list under `wisecrew_apps`, or `None` while the key is absent. */
    var apps: Option<seq<Application>>

    /** A store holding `initial` under the key. */
    constructor(initial: Option<seq<Application>>)
      ensures apps == initial
    {
      apps := initial;
    }

    /** `JSON.parse(localStorage.getItem('wisecrew_apps') || '[]')`: the list, or none when absent. */
    function Stored(): (r: seq<Application>)
      reads this
      ensures apps.Some? ==> r == apps.value
      ensures apps.None? ==> r == []
    {
      apps.GetOr([])
    }

    /** Writes `[app, ...existing]` back under the key. */
    method Prepend(app: Application)
      modifies this
      ensures apps == Some([app] + old(Stored()))
    {
      apps := Some([app] + Stored());
    }
  }
}
