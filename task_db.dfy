/**
 * The three object stores of the checkpoint database, each a map from the
 * record's `id` key to the record: `taskMeta` (with its unique index on `url`),
 * `taskData` (chunks) and `taskStates` (download-state snapshots).
 */
module TaskDb {
  import opened Wrappers
  import opened ResultStore

  datatype TaskMeta = TaskMeta(id: nat, url: string, part: nat)

  datatype TaskData = TaskData(id: nat, data: seq<Result>)

  datatype TaskStates<S> = TaskStates(id: nat, states: S)

  /** `objectStore.add`: refused (ConstraintError) when the key is taken, never overwrites */
  function Add<V>(m: map<nat, V>, key: nat, v: V): (r: Option<map<nat, V>>)
    ensures r.None? <==> key in m
    ensures r.Some? ==> r.value.Keys == m.Keys + {key} && r.value[key] == v
    ensures r.Some? ==> forall k :: k in m ==> r.value[k] == m[k]
  {
    if key in m then None else Some(m[key := v])
  }

  /** `objectStore.put`: inserts or overwrites */
  function Put<V>(m: map<nat, V>, key: nat, v: V): (r: map<nat, V>)
    ensures r.Keys == m.Keys + {key} && r[key] == v
    ensures forall k :: k in m && k != key ==> r[k] == m[k]
  {
    m[key := v]
  }

  /** `objectStore.delete`: removes the key if present, otherwise changes nothing */
  function Delete<V>(m: map<nat, V>, key: nat): (r: map<nat, V>)
    ensures r.Keys == m.Keys - {key}
    ensures forall k :: k in r ==> r[k] == m[k]
  {
    m - {key}
  }

  /** The `keyPath: 'id'` discipline: each record is stored under its own id */
  predicate MetaKeyed(m: map<nat, TaskMeta>)
  {
    forall k :: k in m ==> m[k].id == k
  }

  predicate StatesKeyed<S>(m: map<nat, TaskStates<S>>)
  {
    forall k :: k in m ==> m[k].id == k
  }

  /** The unique index on `taskMeta.url`: no two records share a url */
  predicate UrlIndexUnique(m: map<nat, TaskMeta>)
  {
    forall a, b :: a in m && b in m && m[a].url == m[b].url ==> a == b
  }

  /** Whether some record has `url` */
  predicate HasUrl(m: map<nat, TaskMeta>, url: string)
  {
    exists k :: k in m && m[k].url == url
  }

  /** `add` on `taskMeta`: refused when the key is taken or the url index already holds the url */
  function AddMeta(m: map<nat, TaskMeta>, meta: TaskMeta): (r: Option<map<nat, TaskMeta>>)
    ensures r.None? <==> meta.id in m || HasUrl(m, meta.url)
    ensures r.Some? ==> r.value.Keys == m.Keys + {meta.id} && r.value[meta.id] == meta
    ensures r.Some? ==> forall k :: k in m ==> r.value[k] == m[k]
    ensures r.Some? && UrlIndexUnique(m) ==> UrlIndexUnique(r.value)
    ensures r.Some? && MetaKeyed(m) ==> MetaKeyed(r.value)
  {
    if HasUrl(m, meta.url) then None else Add(m, meta.id, meta)
  }

  /** `index('url').get(url)`: the one record holding `url`, if any */
  function MetaByUrl(m: map<nat, TaskMeta>, url: string): (r: Option<TaskMeta>)
    requires UrlIndexUnique(m)
    ensures r.Some? <==> HasUrl(m, url)
    ensures r.Some? ==> exists k :: k in m && m[k] == r.value
    ensures r.Some? ==> r.value.url == url
  {
    if HasUrl(m, url) then
      var k :| k in m && m[k].url == url;
      Some(m[k])
    else
      None
  }

  /** A url index lookup returns the record stored under the found record's own key */
  lemma MetaByUrlKey(m: map<nat, TaskMeta>, url: string)
    requires UrlIndexUnique(m) && MetaKeyed(m)
    requires MetaByUrl(m, url).Some?
    ensures var meta := MetaByUrl(m, url).value; meta.id in m && m[meta.id] == meta
  {
  }

  /** After deleting the record found for `url`, the url index no longer finds anything for it */
  lemma DeleteFoundMeta(m: map<nat, TaskMeta>, url: string, id: nat)
    requires UrlIndexUnique(m) && MetaKeyed(m)
    requires MetaByUrl(m, url).Some? && MetaByUrl(m, url).value.id == id
    ensures UrlIndexUnique(Delete(m, id)) && MetaKeyed(Delete(m, id))
    ensures MetaByUrl(Delete(m, id), url) == None
  {
    var k :| k in m && m[k] == MetaByUrl(m, url).value;
  }
}
