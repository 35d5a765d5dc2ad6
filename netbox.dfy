/**
 * The upstream inventory records as the reconciliation run reads them. Every
 * member the run reads with a default (`.get(key, default)`) is optional here:
 * `None` or `Absent` means the key is missing. The members the run descends
 * into (`object`, `device`) can also be JSON null, which the run cannot
 * descend into (calling `.get` on None raises).
 */
module Netbox {
  import opened Wrappers

  /** A nested JSON object member: left out, null, or present. */
  datatype Member<T> = Absent | Null | Present(value: T)

  /** `device["role"]`: only its `name` is read. */
  datatype RoleRef = RoleRef(name: Option<string>)

  /** An element of the devices endpoint's `results`. */
  datatype UpstreamDevice = UpstreamDevice(id: int, name: string, role: Option<RoleRef>)

  /** `termination.object.device`: only its `name` is read. */
  datatype DeviceRef = DeviceRef(name: Option<string>)

  /** The port a cable termination points at. */
  datatype PortObject = PortObject(id: Option<int>, name: Option<string>, device: Member<DeviceRef>)

  /** One element of `a_terminations` / `b_terminations`; `obj` is its `object` member. */
  datatype Termination = Termination(obj: Member<PortObject>)

  /** An element of the cables endpoint's `results`. */
  datatype UpstreamCable = UpstreamCable(id: Option<int>,
                                         aTerminations: Option<seq<Termination>>,
                                         bTerminations: Option<seq<Termination>>)

  /** An element of the sites endpoint's `results`. */
  datatype UpstreamSite = UpstreamSite(id: int, name: Option<string>)

  /**
   * The outcome of one fetch: the request failed (transport error or a
   * non-2xx status, raised to the caller), or it returned an envelope whose
   * `results` member may be missing.
   */
  datatype Response<T> = FetchFailed | Fetched(results: Option<seq<T>>)

  /** `raw.get("results", [])`. */
  function ResultsOf<T>(r: Response<T>): seq<T>
    requires r.Fetched?
  {
    r.results.GetOr([])
  }
}
