/**
 The reverse cover's command handlers (custom_components/reverse_cover/cover.py,
 `async_open_cover` to `async_set_cover_position`), modelled as the
 service call each one would hand to the host instead of the call itself.
 */
module Commands {
  import opened Optional
  import ReverseCover
  import CoverStates

  /** The host service domain every forwarded call goes to. */
  const CoverDomain: string := "cover"

  /** A command the proxy receives. `SetPosition` carries the `position`
      keyword argument, which the caller may leave out. */
  datatype Request = Open | Close | Stop | SetPosition(position: Option<int>)

  /** The cover services the proxy can call on its source. */
  datatype Service = OpenCover | CloseCover | StopCover | SetCoverPosition(position: int)

  /** One service call: domain, service and the single target entity. */
  datatype ServiceCall = ServiceCall(domain: string, service: Service, target: ReverseCover.EntityId)

  /** The service an ordinary, non-reversed cover runs for a request; the
      reference against which the proxy's translation is stated. */
  function Direct(req: Request): (s: Option<Service>)
    ensures s.None? <==> req == SetPosition(None)
  {
    match req
    case Open => Some(OpenCover)
    case Close => Some(CloseCover)
    case Stop => Some(StopCover)
    case SetPosition(None) => None
    case SetPosition(Some(p)) => Some(SetCoverPosition(p))
  }

  /** The request a cover receives when a service is called on it: a
      service call is answered by the matching handler. */
  function Received(s: Service): (req: Request)
    ensures Direct(req) == Some(s)
  {
    match s
    case OpenCover => Open
    case CloseCover => Close
    case StopCover => Stop
    case SetCoverPosition(p) => SetPosition(Some(p))
  }

  /** A service as seen through an upside-down cover: open and close swap,
      stop has no direction, a target position is reflected. */
  function Mirror(s: Service): (m: Service)
    ensures s == OpenCover <==> m == CloseCover
    ensures s == CloseCover <==> m == OpenCover
    ensures s == StopCover <==> m == StopCover
    ensures s.SetCoverPosition? <==> m.SetCoverPosition?
    ensures s.SetCoverPosition? ==> m.position + s.position == 100
  {
    match s
    case OpenCover => CloseCover
    case CloseCover => OpenCover
    case StopCover => StopCover
    case SetCoverPosition(p) => SetCoverPosition(ReverseCover.ReflectPosition(p))
  }

  /** The call the proxy for `source` forwards for a request, or `None`
      when it forwards nothing. */
  function Forward(source: ReverseCover.EntityId, req: Request): (r: Option<ServiceCall>)
    ensures r.None? <==> req == SetPosition(None)
    ensures r.Some? ==> r.value.domain == CoverDomain && r.value.target == source
    ensures req == Open <==> r.Some? && r.value.service == CloseCover
    ensures req == Close <==> r.Some? && r.value.service == OpenCover
    ensures req == Stop <==> r.Some? && r.value.service == StopCover
    ensures req.SetPosition? && req.position.Some? ==>
              r.Some? && r.value.service.SetCoverPosition? &&
              r.value.service.position + req.position.value == 100
  {
    match req
    case Open => Some(ServiceCall(CoverDomain, CloseCover, source))
    case Close => Some(ServiceCall(CoverDomain, OpenCover, source))
    case Stop => Some(ServiceCall(CoverDomain, StopCover, source))
    case SetPosition(None) => None
    case SetPosition(Some(p)) =>
      Some(ServiceCall(CoverDomain, SetCoverPosition(ReverseCover.ReflectPosition(p)), source))
  }

  /** Forwarding is the ordinary service, mirrored, sent to the source. */
  lemma ForwardIsMirroredDirect(source: ReverseCover.EntityId, req: Request)
    ensures Direct(req).None? ==> Forward(source, req).None?
    ensures Direct(req).Some? ==>
              Forward(source, req) == Some(ServiceCall(CoverDomain, Mirror(Direct(req).value), source))
  {
  }

  lemma MirrorInvolution(s: Service)
    ensures Mirror(Mirror(s)) == s
  {
  }

  lemma DirectReceived(req: Request)
    requires req != SetPosition(None)
    ensures Received(Direct(req).value) == req
  {
  }

  /** Two reverse covers stacked cancel out. The outer proxy's source is
      the inner proxy; the inner proxy, receiving the outer one's call,
      asks its own source for what the original request names, with a
      target position reflected twice back to itself. */
  lemma StackedProxiesCancel(innerProxy: ReverseCover.EntityId, innerSource: ReverseCover.EntityId,
                             req: Request)
    requires req != SetPosition(None)
    ensures Forward(innerProxy, req).Some?
    ensures var hop := Received(Forward(innerProxy, req).value.service);
            Forward(innerSource, hop) == Some(ServiceCall(CoverDomain, Direct(req).value, innerSource))
  {
  }

  /** Once the source reaches the position it was sent, the proxy reports
      exactly the position it was asked for. */
  lemma SetPositionRoundTrip(source: ReverseCover.EntityId, p: int, state: string)
    ensures Forward(source, SetPosition(Some(p))).Some?
    ensures var target := Forward(source, SetPosition(Some(p))).value.service.position;
            ReverseCover.CurrentPosition(Some(ReverseCover.SourceState(state, Some(target)))) == Some(p)
  {
  }

  /** Asking the proxy to open sends the source closing; while the source is
      closing the proxy reports itself opening, and the other way round. */
  lemma DirectionAgreesWithFlags(source: ReverseCover.EntityId, pos: Option<int>)
    ensures Forward(source, Open).value.service == CloseCover
    ensures ReverseCover.IsOpening(Some(ReverseCover.SourceState(CoverStates.Closing, pos))) == Some(true)
    ensures Forward(source, Close).value.service == OpenCover
    ensures ReverseCover.IsClosing(Some(ReverseCover.SourceState(CoverStates.Opening, pos))) == Some(true)
  {
  }
}
