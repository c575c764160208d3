/**
 * The replacement `update_dashboard` of `grafana_wtf/monkey.py`: before the
 * dashboard is saved, a missing top-level `folderId` is taken from the
 * nested `meta` object, on a copy of the payload.
 */
module Monkey {
  import opened Wrappers
  import opened Dict
  import opened Json

  /** The path every dashboard is saved to. */
  const SaveDashboardPath: string := "/dashboards/db"

  /** An HTTP POST the client sends: the path and the JSON body. */
  datatype Post = Post(path: string, body: Value)

  /** The payload as sent: `folderId` back-filled from `meta.folderId` when
      the payload lacks it and its `meta` has one, otherwise the payload itself. */
  function UpdatePayload(dashboard: Value): (r: Result<Value>)
    ensures dashboard.Object? && r.Err? ==>
              Lookup(dashboard.fields, "meta").Some? && !Lookup(dashboard.fields, "meta").value.Object?
    ensures dashboard.Object? && "folderId" in Keys(dashboard.fields) ==> r == Ok(dashboard)
    ensures dashboard.Object? && "meta" !in Keys(dashboard.fields) ==> r == Ok(dashboard)
  {
    match PyIn("folderId", dashboard)
    case Err(e) => Err(e)
    case Ok(true) => Ok(dashboard)
    case Ok(false) =>
      match PyIn("meta", dashboard)
      case Err(e) => Err(e)
      case Ok(false) => Ok(dashboard)
      case Ok(true) =>
        assert dashboard.Object? ==> Lookup(dashboard.fields, "meta").Some? by {
          if dashboard.Object? {
            LookupFound(dashboard.fields, "meta");
          }
        }
        match Subscript(dashboard, "meta")
        case Err(e) => Err(e)
        case Ok(meta) =>
          assert meta.Object? ==> (Lookup(meta.fields, "folderId").Some? <==> "folderId" in Keys(meta.fields)) by {
            if meta.Object? {
              LookupFound(meta.fields, "folderId");
            }
          }
          match PyIn("folderId", meta)
          case Err(e) => Err(e)
          case Ok(false) => Ok(dashboard)
          case Ok(true) =>
            match Subscript(meta, "folderId")
            case Err(e) => Err(e)
            case Ok(folderId) => Ok(Object(Store(dashboard.fields, "folderId", folderId)))
  }

  /** `update_dashboard(dashboard)`: POST the payload to the dashboard save path. */
  function UpdateDashboard(dashboard: Value): (r: Result<Post>)
    ensures r.Ok? <==> UpdatePayload(dashboard).Ok?
    ensures r.Ok? ==> r.value.path == SaveDashboardPath && r.value.body == UpdatePayload(dashboard).value
  {
    match UpdatePayload(dashboard)
    case Err(e) => Err(e)
    case Ok(body) => Ok(Post(SaveDashboardPath, body))
  }

  /** A payload without `folderId` whose `meta` dict carries one is sent with
      that `folderId` added and every other key as it was. */
  lemma BackFillsFolderId(dashboard: Value)
    requires dashboard.Object? && "folderId" !in Keys(dashboard.fields)
    requires Lookup(dashboard.fields, "meta").Some?
    requires var meta := Lookup(dashboard.fields, "meta").value;
             meta.Object? && Lookup(meta.fields, "folderId").Some?
    ensures UpdatePayload(dashboard).Ok?
    ensures var sent := UpdatePayload(dashboard).value;
            sent.Object?
            && Lookup(sent.fields, "folderId") == Lookup(Lookup(dashboard.fields, "meta").value.fields, "folderId")
            && forall k :: k != "folderId" ==> Lookup(sent.fields, k) == Lookup(dashboard.fields, k)
  {
    LookupFound(dashboard.fields, "meta");
    LookupFound(Lookup(dashboard.fields, "meta").value.fields, "folderId");
  }

  /** Without `folderId` in a `meta` dict, the payload is sent as it is. */
  lemma NoMetaFolderIdUnchanged(dashboard: Value)
    requires dashboard.Object? && "folderId" !in Keys(dashboard.fields)
    requires Lookup(dashboard.fields, "meta").Some?
    requires var meta := Lookup(dashboard.fields, "meta").value;
             meta.Object? && Lookup(meta.fields, "folderId").None?
    ensures UpdatePayload(dashboard) == Ok(dashboard)
  {
    LookupFound(dashboard.fields, "meta");
    LookupFound(Lookup(dashboard.fields, "meta").value.fields, "folderId");
  }

  /** Sending a payload that was already back-filled changes nothing more. */
  lemma UpdatePayloadIdempotent(dashboard: Value)
    requires dashboard.Object? && UpdatePayload(dashboard).Ok?
    ensures UpdatePayload(UpdatePayload(dashboard).value) == UpdatePayload(dashboard)
  {
    var sent := UpdatePayload(dashboard).value;
    if sent != dashboard {
      assert Lookup(sent.fields, "folderId").Some?;
      LookupFound(sent.fields, "folderId");
    }
  }

  /** A payload that can be sent differs from the caller's at most in `folderId`. */
  lemma UpdatePayloadOnlyFolderId(dashboard: Value)
    requires dashboard.Object? && UpdatePayload(dashboard).Ok?
    ensures UpdatePayload(dashboard).value.Object?
    ensures forall k :: k != "folderId" ==> Lookup(UpdatePayload(dashboard).value.fields, k) == Lookup(dashboard.fields, k)
  {
    LookupFound(dashboard.fields, "meta");
    if "folderId" !in Keys(dashboard.fields) && "meta" in Keys(dashboard.fields) {
      var meta := Lookup(dashboard.fields, "meta").value;
      if meta.Object? {
        if Lookup(meta.fields, "folderId").Some? {
          BackFillsFolderId(dashboard);
        } else {
          NoMetaFolderIdUnchanged(dashboard);
        }
      }
    }
  }
}
