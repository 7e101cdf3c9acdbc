/** The response writer of net/http and the two recorders wrapped around it
    (internal/obs/middleware.go, internal/metrics/middleware.go). */
module Responses {

  /** Connection: the server's own writer, at the bottom of every chain.
      Body recorder: obs.responseRecorder. Status recorder: metrics.statusRecorder,
      which does not override Write and so counts no bytes. */
  datatype Kind = Connection | BodyRecorder | StatusRecorder

  datatype WriterState = WriterState(kind: Kind, status: int, bytes: nat, wroteHeader: bool)

  /** A writer nobody has used. For the connection, 200 is what net/http sends if
      the handler returns without a header. */
  function Fresh(kind: Kind): WriterState {
    WriterState(kind, 200, 0, false)
  }

  /** checkWriteHeaderCode panics outside three digits. */
  predicate ValidCode(code: int) {
    100 <= code <= 999
  }

  /** 1xx responses other than 101 are sent at once and do not commit the response. */
  predicate FinalCode(code: int) {
    ValidCode(code) && (code == 101 || code >= 200)
  }

  /** Whether WriteHeader panics on a connection that has (not) committed: a
      superfluous call returns before the code is looked at. */
  predicate HeaderPanics(sent: bool, code: int) {
    !sent && !ValidCode(code)
  }

  function HeaderOn(w: WriterState, code: int): WriterState {
    if w.wroteHeader then w
    else if w.kind.Connection? && !FinalCode(code) then w
    else w.(status := code, wroteHeader := true)
  }

  /** A Write of which the connection accepts n bytes. */
  function BodyOn(w: WriterState, n: nat): WriterState {
    match w.kind
    case Connection =>
      if w.wroteHeader then w.(bytes := w.bytes + n)
      else w.(status := 200, wroteHeader := true, bytes := w.bytes + n)
    case BodyRecorder => w.(bytes := w.bytes + n)
    case StatusRecorder => w
  }

  /** Connection first, then the recorders from the outside in. */
  type Chain = seq<WriterState>

  function ChainHeader(chain: Chain, code: int): (c: Chain)
    ensures |c| == |chain|
  {
    seq(|chain|, i requires 0 <= i < |chain| => HeaderOn(chain[i], code))
  }

  function ChainBody(chain: Chain, n: nat): (c: Chain)
    ensures |c| == |chain|
  {
    seq(|chain|, i requires 0 <= i < |chain| => BodyOn(chain[i], n))
  }

  lemma ChainSnoc(chain: Chain, w: WriterState, code: int, n: nat)
    ensures ChainHeader(chain + [w], code) == ChainHeader(chain, code) + [HeaderOn(w, code)]
    ensures ChainBody(chain + [w], n) == ChainBody(chain, n) + [BodyOn(w, n)]
  {
  }

  class ResponseWriter {
    const kind: Kind
    const inner: ResponseWriter?
    ghost const depth: nat
    ghost const repr: set<object>
    var status: int
    var bytes: nat
    var wroteHeader: bool

    /** The wrapping is fixed at construction; only the recorded fields change. */
    ghost predicate Valid()
      decreases depth
    {
      && (inner == null <==> kind.Connection?)
      && (inner == null ==> repr == {this})
      && (inner != null ==>
            && this !in inner.repr && repr == {this} + inner.repr
            && depth == inner.depth + 1 && inner.Valid())
    }

    function State(): WriterState
      reads this
    {
      WriterState(kind, status, bytes, wroteHeader)
    }

    ghost function States(): (c: Chain)
      requires Valid()
      reads repr
      ensures |c| >= 1 && c[|c| - 1] == State()
      decreases depth
    {
      (if inner == null then [] else inner.States()) + [State()]
    }

    /** A new connection. */
    constructor Accept()
      ensures Valid() && fresh(repr)
      ensures States() == [Fresh(Connection)]
    {
      kind, inner, depth, repr := Connection, null, 0, {this};
      status, bytes, wroteHeader := 200, 0, false;
    }

    /** &responseRecorder{ResponseWriter: w, status: 200} and its sibling. */
    constructor Wrap(kind: Kind, w: ResponseWriter)
      requires w.Valid() && !kind.Connection?
      ensures Valid() && inner == w && repr == {this} + w.repr
      ensures States() == w.States() + [Fresh(kind)]
      ensures w.States() == old(w.States())
    {
      this.kind, inner, depth, repr := kind, w, w.depth + 1, {this} + w.repr;
      status, bytes, wroteHeader := 200, 0, false;
    }

    /** WriteHeader of net/http's own writer. */
    method SendHeader(code: int) returns (panicked: bool)
      requires kind.Connection?
      modifies this
      ensures State() == HeaderOn(old(State()), code)
      ensures panicked == HeaderPanics(old(wroteHeader), code)
    {
      if wroteHeader {
        return false;
      }
      if !ValidCode(code) {
        return true;
      }
      if FinalCode(code) {
        wroteHeader, status := true, code;
      }
      panicked := false;
    }

    /** Write of net/http's own writer: the first body byte commits a 200. */
    method SendBody(n: nat)
      requires kind.Connection?
      modifies this
      ensures State() == BodyOn(old(State()), n)
    {
      if !wroteHeader {
        status, wroteHeader := 200, true;
      }
      bytes := bytes + n;
    }

    method WriteHeader(code: int) returns (panicked: bool)
      requires Valid()
      modifies repr
      ensures States() == ChainHeader(old(States()), code)
      ensures panicked == HeaderPanics(old(States())[0].wroteHeader, code)
      decreases depth
    {
      if inner == null {
        panicked := SendHeader(code);
        return;
      }
      ghost var under, self := inner.States(), State();
      assert States() == under + [self];
      if !wroteHeader {
        status, wroteHeader := code, true;
      }
      assert inner.States() == under;
      assert State() == HeaderOn(self, code);
      panicked := inner.WriteHeader(code);
      ChainSnoc(under, self, code, 0);
      assert States() == inner.States() + [State()];
    }

    /** What a recorder does with the byte count of the writer below it. */
    method Count(n: nat)
      requires !kind.Connection?
      modifies this
      ensures State() == BodyOn(old(State()), n)
    {
      if kind.BodyRecorder? {
        bytes := bytes + n;
      }
    }

    /** n stands for the bytes the connection accepts; recorders add what the
        writer below them reports. */
    method Write(n: nat) returns (accepted: nat)
      requires Valid()
      modifies repr
      ensures States() == ChainBody(old(States()), n)
      ensures accepted == n
      decreases depth
    {
      accepted := n;
      if inner == null {
        SendBody(n);
        return;
      }
      ghost var under, self := inner.States(), State();
      assert States() == under + [self];
      ChainSnoc(under, self, 0, n);
      accepted := inner.Write(n);
      assert State() == self;
      Count(accepted);
      assert inner.States() == ChainBody(under, n);
      assert States() == inner.States() + [State()];
    }

    /** writeJSON (internal/api/router.go): the header, then one body write. */
    method SendJSON(code: int, n: nat)
      requires Valid()
      modifies repr
      ensures States() == ChainBody(ChainHeader(old(States()), code), n)
    {
      hide States;
      var _ := WriteHeader(code);
      var _ := Write(n);
    }
  }
}
