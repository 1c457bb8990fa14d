/** services.go's unaryCall and streamCall: which final responses a method can end with. */
module Services {
  import opened Types
  import opened ServerEngine

  const INTERNAL: nat := 13

  /** How a method ends: an error and its code, or a nil or proper object, which may fail to encode. */
  datatype Result = Failed(code: nat) | Returned(obj: Option<bytes>) | Unencodable
  {
    /** An error never has the code OK. */
    predicate Possible() { Failed? ==> code != 0 }
  }

  /** protoMarshal, where nil encodes to nil, and the status of an error. */
  function StreamCall(r: Result): (nat, Option<bytes>) {
    match r
    case Failed(code) => (code, None)
    case Returned(obj) => (0, obj)
    case Unencodable => (INTERNAL, None)
  }

  /** The same, but that a unary method must not return nil. */
  function UnaryCall(r: Result): (nat, Option<bytes>) {
    if r == Returned(None) then (UNKNOWN, None) else StreamCall(r)
  }

  function Call(kind: Kind, r: Result): (nat, Option<bytes>) {
    if kind.Unary? then UnaryCall(r) else StreamCall(r)
  }

  /** The objects a client will decode can be decoded. */
  predicate Decodable(cfg: Config, t: Task, code: nat, data: Option<bytes>) {
    code == 0 && !(StreamingServer(t) && data.None?) ==> cfg.objOk(DataBytes(data))
  }

  /** The engine lets a running method finish with a response exactly if some way of ending produces it. */
  lemma FinishIsCall(cfg: Config, t: Task, code: nat, data: Option<bytes>, done: bool)
    requires t.pc.Running?
    ensures TaskCan(cfg, t, Finish(code, data), done) <==>
            Decodable(cfg, t, code, data) && exists r: Result :: r.Possible() && Call(t.kind, r) == (code, data)
  {
    var r := if code == 0 then Returned(data) else Failed(code);
    if TaskCan(cfg, t, Finish(code, data), done) {
      assert r.Possible() && Call(t.kind, r) == (code, data);
    }
  }

  /** What a method ends with is written as the terminal frame its kind calls for: data that ends the
      stream only for a streaming server that succeeded, and then marked as carrying none exactly if the
      object was nil. */
  lemma FinalFrameOf(cfg: Config, t: Task, r: Result)
    requires r.Possible()
    ensures var (code, data) := Call(t.kind, r);
            var f := FrameOf(cfg, FinalOut(t, code, data));
            && f.sid == t.id
            && (f.typ == DATA <==> StreamingServer(t) && r.Returned?)
            && (f.typ == DATA ==> HasRemoteClosed(f.flags) && (HasNoData(f.flags) <==> r.obj.None?) && f.payload == DataBytes(r.obj))
            && (f.typ != DATA ==> f.typ == RESPONSE && f.payload == cfg.respEnc(Resp(code, DataBytes(data))))
            && (r.Failed? ==> code == r.code && data == None)
            && (r == Returned(None) && t.kind.Unary? ==> code == 2)
            && (r.Unencodable? ==> code == 13)
            && (f.typ == RESPONSE && code == 0 ==> r.Returned? && data == r.obj && (t.kind.Unary? ==> data.Some?))
  {
  }
}
