/**
 * The authentication interceptor (pkg/service/interceptors.go). Before a
 * unary or streaming call reaches its handler, the interceptor reads the
 * authorization entry of the call's incoming metadata, dials the auth
 * service at its configured address and asks it to verify the first
 * authorization value. The dial and the remote Verify are opaque outcomes:
 * functions of the address dialled and of the token sent.
 */
module Interceptors {
  import opened Wrappers

  /** gRPC status codes: the two the interceptor produces, and any other one a wrapped handler may return. */
  datatype Code = Unauthenticated | Internal | OtherCode(name: string)

  /** A gRPC status error. */
  datatype Status = Status(code: Code, message: string)

  /** gRPC metadata: lower-cased keys, each with a list of values. */
  type Metadata = map<string, seq<string>>

  /** The parts of a call context the interceptor reads: the incoming metadata, if the context carries any. */
  datatype Context = Context(incoming: Option<Metadata>)

  /**
   * The outside world of a call to authenticate: whether the dial to an
   * address returns without error, and whether the remote Verify accepts a
   * token. The dial blocks without a deadline; dialSucceeds = false stands
   * only for the errors Dial returns, not for an address that never answers.
   */
  datatype Network = Network(dialSucceeds: string -> bool, verifyAccepts: string -> bool)

  /** A unary handler's (response, error) pair. */
  datatype Reply<R> = Reply(resp: Option<R>, err: Option<Status>)

  const WrongMetadata: Status := Status(Unauthenticated, "Wrong metadata")
  const DialFailed: Status := Status(Internal, "Could not to dial auth server")
  const VerifyFailed: Status := Status(Unauthenticated, "Could not to verify auth token")

  /** md["authorization"], which is empty when the context has no metadata or no such entry. */
  function Authorization(ctx: Context): seq<string> {
    if ctx.incoming.Some? && "authorization" in ctx.incoming.value then ctx.incoming.value["authorization"] else []
  }

  /** The interceptor struct; its only field, the auth service's address, never changes. */
  datatype Interceptor = Interceptor(addr: string) {

    function GetFirebaseAuthServiceAddr(): string {
      addr
    }

    /** authenticate: nil (None) when the call may proceed, else the status error. */
    function Authenticate(ctx: Context, fullMethod: string, net: Network): Option<Status> {
      if ctx.incoming.None? || |Authorization(ctx)| == 0 then Some(WrongMetadata)
      else if !net.dialSucceeds(GetFirebaseAuthServiceAddr()) then Some(DialFailed)
      else if !net.verifyAccepts(Authorization(ctx)[0]) then Some(VerifyFailed)
      else None
    }

    /** AuthUnaryInterceptor: the handler's reply if authentication succeeds, else (nil, err). */
    function AuthUnaryInterceptor<Req, Resp>(ctx: Context, req: Req, fullMethod: string,
                                             handler: (Context, Req) -> Reply<Resp>, net: Network): Reply<Resp>
    {
      var err := Authenticate(ctx, fullMethod, net);
      if err.Some? then Reply(None, err) else handler(ctx, req)
    }

    /** AuthStreamInterceptor: authenticate with the stream's context, then the handler's error, or the authentication error. */
    function AuthStreamInterceptor<Srv, Stream>(srv: Srv, stream: Stream, streamContext: Stream -> Context,
                                                fullMethod: string, handler: (Srv, Stream) -> Option<Status>,
                                                net: Network): Option<Status>
    {
      var err := Authenticate(streamContext(stream), fullMethod, net);
      if err.Some? then err else handler(srv, stream)
    }
  }

  /** NewAuthInterceptor: the interceptor remembers exactly the address it is given. */
  function NewAuthInterceptor(authServiceAddress: string): (i: Interceptor)
    ensures i.GetFirebaseAuthServiceAddr() == authServiceAddress
  {
    Interceptor(authServiceAddress)
  }

  // ---------------------------------------------------------------------
  // authenticate

  /** The call is let through exactly when there is a token, the dial succeeds and the auth service accepts the first token. */
  lemma AuthenticateSucceedsIff(i: Interceptor, ctx: Context, fullMethod: string, net: Network)
    ensures i.Authenticate(ctx, fullMethod, net).None? <==>
              |Authorization(ctx)| > 0 && net.dialSucceeds(i.addr) && net.verifyAccepts(Authorization(ctx)[0])
  {
  }

  /**
   * Without incoming metadata, or with an empty authorization list, the call
   * is rejected as Unauthenticated before any dial: the outcome is the same
   * whatever the network would do.
   */
  lemma NoTokenRejectedWithoutDial(i: Interceptor, ctx: Context, fullMethod: string, net1: Network, net2: Network)
    requires ctx.incoming.None? || |Authorization(ctx)| == 0
    ensures i.Authenticate(ctx, fullMethod, net1) == i.Authenticate(ctx, fullMethod, net2) == Some(WrongMetadata)
    ensures WrongMetadata.code == Unauthenticated
  {
  }

  /** A failed dial to the configured address is an Internal error, not Unauthenticated. */
  lemma DialFailureIsInternal(i: Interceptor, ctx: Context, fullMethod: string, net: Network)
    requires |Authorization(ctx)| > 0 && !net.dialSucceeds(i.addr)
    ensures i.Authenticate(ctx, fullMethod, net) == Some(DialFailed)
    ensures DialFailed.code == Internal
  {
  }

  /** Any failure of the remote Verify is Unauthenticated. */
  lemma VerifyFailureIsUnauthenticated(i: Interceptor, ctx: Context, fullMethod: string, net: Network)
    requires |Authorization(ctx)| > 0 && net.dialSucceeds(i.addr) && !net.verifyAccepts(Authorization(ctx)[0])
    ensures i.Authenticate(ctx, fullMethod, net) == Some(VerifyFailed)
    ensures VerifyFailed.code == Unauthenticated
  {
  }

  /**
   * Only the first authorization value is sent: two networks that agree on
   * the dial and on that token give the same outcome, whatever they would
   * say of the other values.
   */
  lemma OnlyFirstTokenSent(i: Interceptor, ctx: Context, fullMethod: string, net1: Network, net2: Network)
    requires |Authorization(ctx)| > 0
    requires net1.dialSucceeds(i.addr) == net2.dialSucceeds(i.addr)
    requires net1.verifyAccepts(Authorization(ctx)[0]) == net2.verifyAccepts(Authorization(ctx)[0])
    ensures i.Authenticate(ctx, fullMethod, net1) == i.Authenticate(ctx, fullMethod, net2)
  {
  }

  /** Every rejection is Unauthenticated or Internal, and Internal only for the dial. */
  lemma RejectionCodes(i: Interceptor, ctx: Context, fullMethod: string, net: Network)
    ensures var err := i.Authenticate(ctx, fullMethod, net);
            err.Some? ==> (err.value.code == Unauthenticated || err.value.code == Internal)
    ensures var err := i.Authenticate(ctx, fullMethod, net);
            err.Some? && err.value.code == Internal <==> |Authorization(ctx)| > 0 && !net.dialSucceeds(i.addr)
  {
  }

  // ---------------------------------------------------------------------
  // The two interceptors

  /**
   * The unary interceptor returns the handler's reply unchanged, called
   * with the same context and request, if and only if authentication
   * succeeds; otherwise it returns (nil, err) and the handler plays no part.
   */
  lemma UnaryCallsHandlerIffAuthenticated<Req, Resp>(i: Interceptor, ctx: Context, req: Req, fullMethod: string,
                                                         handler: (Context, Req) -> Reply<Resp>,
                                                         other: (Context, Req) -> Reply<Resp>, net: Network)
    ensures var err := i.Authenticate(ctx, fullMethod, net);
            err.None? ==> i.AuthUnaryInterceptor(ctx, req, fullMethod, handler, net) == handler(ctx, req)
    ensures var err := i.Authenticate(ctx, fullMethod, net);
            err.Some? ==> i.AuthUnaryInterceptor(ctx, req, fullMethod, handler, net) == Reply(None, err) ==
                          i.AuthUnaryInterceptor(ctx, req, fullMethod, other, net)
  {
  }

  /**
   * The stream interceptor authenticates with the stream's own context and
   * returns the handler's result for the same server and stream if and only
   * if that succeeds; otherwise the authentication error, whatever the handler.
   */
  lemma StreamCallsHandlerIffAuthenticated<Srv, Stream>(i: Interceptor, srv: Srv, stream: Stream,
                                                        streamContext: Stream -> Context, fullMethod: string,
                                                        handler: (Srv, Stream) -> Option<Status>,
                                                        other: (Srv, Stream) -> Option<Status>, net: Network)
    ensures var err := i.Authenticate(streamContext(stream), fullMethod, net);
            err.None? ==> i.AuthStreamInterceptor(srv, stream, streamContext, fullMethod, handler, net) == handler(srv, stream)
    ensures var err := i.Authenticate(streamContext(stream), fullMethod, net);
            err.Some? ==> i.AuthStreamInterceptor(srv, stream, streamContext, fullMethod, handler, net) == err ==
                          i.AuthStreamInterceptor(srv, stream, streamContext, fullMethod, other, net)
  {
  }

  /** A unary call on a bare background context (no metadata) fails, whatever the handler and the network. */
  lemma BackgroundContextRejected<Req, Resp>(req: Req, handler: (Context, Req) -> Reply<Resp>, net: Network)
    ensures NewAuthInterceptor("127.0.0.1:50053").AuthUnaryInterceptor(Context(None), req, "/service.auth", handler, net).err.Some?
  {
  }
}
