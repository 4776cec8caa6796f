/**
 The workspace WebSocket hub. Mutations, version increments, registrations,
 encodes and writes happen in any order; the question is whether a payload's
 version number tells how fresh it is.
 */
module Hub {
  import opened Wrappers

  type Conn = nat

  // ----- The workspace and its projection -----

  datatype Item = Item(permission: string, body: string)

  datatype Mutation = Put(key: string, item: Item) | Remove(key: string)

  type Workspace = map<string, Item>

  datatype Session = Session(permissions: set<string>)

  function Mutate(w: Workspace, m: Mutation): Workspace {
    match m
    case Put(k, item) => w[k := item]
    case Remove(k) => w - {k}
  }

  function Replay(log: seq<Mutation>): Workspace {
    if log == [] then map[] else Mutate(Replay(log[..|log| - 1]), log[|log| - 1])
  }

  /** A session only ever sees what it is permitted to see. */
  function Filter(w: Workspace, sess: Session): Workspace {
    map k | k in w && w[k].permission in sess.permissions :: w[k]
  }

  predicate Touches(m: Mutation, k: string) {
    m.key == k
  }

  /** Mutation j is the last of the log to touch the key, and puts this item there. */
  ghost predicate LastPut(log: seq<Mutation>, j: int, k: string, item: Item) {
    && 0 <= j < |log| && log[j] == Put(k, item)
    && forall i :: j < i < |log| ==> !Touches(log[i], k)
  }

  lemma {:induction false} ReplayHoldsLast(log: seq<Mutation>, k: string, item: Item)
    ensures k in Replay(log) && Replay(log)[k] == item <==> exists j :: LastPut(log, j, k, item)
  {
    if log != [] {
      var n := |log| - 1;
      ReplayHoldsLast(log[..n], k, item);
      if Touches(log[n], k) {
        assert log[n] == Put(k, item) ==> LastPut(log, n, k, item);
      } else {
        forall j | LastPut(log[..n], j, k, item) ensures LastPut(log, j, k, item) {
        }
        forall j | LastPut(log, j, k, item) ensures LastPut(log[..n], j, k, item) {
        }
      }
    }
  }

  /** The data is what the log last put and nobody took away, of what the session may see. */
  ghost predicate Shows(data: Workspace, log: seq<Mutation>, sess: Session) {
    forall k: string, item: Item ::
      k in data && data[k] == item <==> item.permission in sess.permissions && exists j :: LastPut(log, j, k, item)
  }

  lemma FilterShows(log: seq<Mutation>, sess: Session)
    ensures Shows(Filter(Replay(log), sess), log, sess)
  {
    var data := Filter(Replay(log), sess);
    forall k: string, item: Item
      ensures k in data && data[k] == item
         <==> item.permission in sess.permissions && exists j :: LastPut(log, j, k, item)
    {
      ReplayHoldsLast(log, k, item);
    }
  }

  // ----- The hub -----

  /** `seen` is history: how many mutations the store had absorbed when the payload was encoded. */
  datatype Payload = Payload(version: nat, data: Workspace, seen: nat)

  /** One write owed to a connection: its version is fixed first, its data when it is encoded. */
  datatype Job = Job(conn: Conn, version: nat, first: bool, payload: Option<Payload>)

  datatype Client = Client(sess: Session, inbox: seq<Payload>)

  /**
   `stamps` is history: the version each mutation's broadcast took. `greeting`
   are the registered connections whose first snapshot has not loaded a version;
   `unlisted` the broadcasts that have a version but have not listed their targets;
   `faulted` the connections a write to which has failed.
   */
  datatype State = State(
    log: seq<Mutation>,
    stamps: map<nat, nat>,
    version: nat,
    clients: map<Conn, Client>,
    greeting: set<Conn>,
    unlisted: set<nat>,
    jobs: set<Job>,
    faulted: set<Conn>)

  datatype Step =
    | Change(mutation: Mutation)                 // a handler updates the store
    | Announce(announced: Option<nat>)           // Broadcast takes a version, for a mutation or for none
    | ListTargets(version: nat)                  // copies the clients map under the lock
    | Register(conn: Conn, sess: Session)        // ServeWS
    | LoadVersion(conn: Conn)                    // encode: the version is read before the store
    | Encode(job: Job)
    | Deliver(job: Job)
    | Fail(job: Job)
    | Disconnect(conn: Conn)

  function Initial(): State {
    State([], map[], 0, map[], {}, {}, {}, {})
  }

  function Apply(s: State, step: Step): State {
    match step
    case Change(m) => s.(log := s.log + [m])
    case Announce(which) =>
      var v := s.version + 1;
      var stamps := if which.Some? && which.value < |s.log| && which.value !in s.stamps
                    then s.stamps[which.value := v] else s.stamps;
      s.(version := v, unlisted := s.unlisted + {v}, stamps := stamps)
    case ListTargets(v) =>
      if v !in s.unlisted then s
      else s.(unlisted := s.unlisted - {v}, jobs := s.jobs + set c | c in s.clients :: Job(c, v, false, None))
    case Register(c, sess) =>
      if c in s.clients || c in s.faulted then s
      else s.(clients := s.clients[c := Client(sess, [])], greeting := s.greeting + {c})
    case LoadVersion(c) =>
      if c !in s.greeting then s
      else s.(greeting := s.greeting - {c}, jobs := s.jobs + {Job(c, s.version, true, None)})
    case Encode(j) =>
      if j !in s.jobs || j.payload.Some? || j.conn !in s.clients then s
      else
        var data := Filter(Replay(s.log), s.clients[j.conn].sess);
        s.(jobs := s.jobs - {j} + {j.(payload := Some(Payload(j.version, data, |s.log|)))})
    case Deliver(j) =>
      if j !in s.jobs || j.payload.None? then s
      else if j.conn !in s.clients then s.(jobs := s.jobs - {j})
      else
        var c := s.clients[j.conn];
        s.(jobs := s.jobs - {j}, clients := s.clients[j.conn := c.(inbox := c.inbox + [j.payload.value])])
    case Fail(j) =>
      if j !in s.jobs then s else s.(jobs := s.jobs - {j}, faulted := s.faulted + {j.conn})
    case Disconnect(c) =>
      s.(clients := s.clients - {c}, greeting := s.greeting - {c}, faulted := s.faulted + {c})
  }

  function Run(s: State, steps: seq<Step>): State
    decreases |steps|
  {
    if steps == [] then s else Run(Apply(s, steps[0]), steps[1..])
  }

  // ----- Version orders freshness -----

  /** The payload shows the store after its first `seen` mutations, among them every one announced by then. */
  ghost predicate Fresh(s: State, sess: Session, p: Payload) {
    && p.version <= s.version
    && p.seen <= |s.log|
    && p.data == Filter(Replay(s.log[..p.seen]), sess)
    && forall i :: i in s.stamps && s.stamps[i] <= p.version ==> i < p.seen
  }

  ghost predicate JobSound(s: State, j: Job) {
    && j.version <= s.version
    && (j.payload.Some? ==> j.payload.value.version == j.version)
    && (j.payload.Some? && j.conn in s.clients ==> Fresh(s, s.clients[j.conn].sess, j.payload.value))
  }

  ghost predicate ClientSound(s: State, c: Conn)
    requires c in s.clients
  {
    forall k :: 0 <= k < |s.clients[c].inbox| ==> Fresh(s, s.clients[c].sess, s.clients[c].inbox[k])
  }

  /** The current version has reached the connection, or is on its way. */
  ghost predicate Covered(s: State, c: Conn)
    requires c in s.clients
  {
    || c in s.greeting
    || s.version in s.unlisted
    || (exists j :: j in s.jobs && j.conn == c && j.version == s.version)
    || (exists k :: 0 <= k < |s.clients[c].inbox| && s.clients[c].inbox[k].version == s.version)
  }

  ghost predicate Sound(s: State) {
    && (forall i :: i in s.stamps ==> i < |s.log| && s.stamps[i] <= s.version)
    && (forall v :: v in s.unlisted ==> v <= s.version)
    && (forall c :: c in s.greeting ==> c in s.clients)
    && (forall j :: j in s.jobs ==> j.conn in s.clients || j.conn in s.faulted)
    && (forall j {:trigger JobSound(s, j)} :: j in s.jobs ==> JobSound(s, j))
    && (forall c {:trigger ClientSound(s, c)} :: c in s.clients ==> ClientSound(s, c))
    && (forall c {:trigger Covered(s, c)} :: c in s.clients && c !in s.faulted ==> Covered(s, c))
  }

  /** More mutations and later announcements do not make a payload less fresh than its version says. */
  lemma FreshKept(s: State, s': State, sess: Session, p: Payload)
    requires Fresh(s, sess, p)
    requires s.log <= s'.log && s.version <= s'.version
    requires forall i :: i in s'.stamps && s'.stamps[i] <= s.version ==> i in s.stamps && s.stamps[i] == s'.stamps[i]
    ensures Fresh(s', sess, p)
  {
    assert s'.log[..p.seen] == s.log[..p.seen];
  }

  lemma FreshAllKept(s: State, s': State)
    requires Sound(s)
    requires s.log <= s'.log && s.version <= s'.version
    requires forall i :: i in s'.stamps && s'.stamps[i] <= s.version ==> i in s.stamps && s.stamps[i] == s'.stamps[i]
    requires forall c :: c in s.clients && c in s'.clients ==> s'.clients[c].sess == s.clients[c].sess
    ensures forall c, p :: c in s.clients && Fresh(s, s.clients[c].sess, p) ==> Fresh(s', s.clients[c].sess, p)
    ensures forall j :: j in s.jobs && (j.conn in s'.clients ==> j.conn in s.clients) ==> JobSound(s', j)
  {
    forall c, p | c in s.clients && Fresh(s, s.clients[c].sess, p)
      ensures Fresh(s', s.clients[c].sess, p)
    {
      FreshKept(s, s', s.clients[c].sess, p);
    }
    forall j | j in s.jobs && (j.conn in s'.clients ==> j.conn in s.clients)
      ensures JobSound(s', j)
    {
      assert JobSound(s, j);
    }
  }

  lemma ChangeSound(s: State, m: Mutation)
    requires Sound(s)
    ensures Sound(Apply(s, Change(m)))
  {
    var s' := Apply(s, Change(m));
    FreshAllKept(s, s');
    forall c | c in s'.clients ensures ClientSound(s', c) { assert ClientSound(s, c); }
    forall c | c in s'.clients && c !in s'.faulted ensures Covered(s', c) { assert Covered(s, c); }
  }

  lemma AnnounceSound(s: State, which: Option<nat>)
    requires Sound(s)
    ensures Sound(Apply(s, Announce(which)))
  {
    var s' := Apply(s, Announce(which));
    FreshAllKept(s, s');
    forall c | c in s'.clients ensures ClientSound(s', c) { assert ClientSound(s, c); }
    forall c | c in s'.clients && c !in s'.faulted ensures Covered(s', c) {}
  }

  lemma ListTargetsSound(s: State, v: nat)
    requires Sound(s) && v in s.unlisted
    ensures Sound(Apply(s, ListTargets(v)))
  {
    var s' := Apply(s, ListTargets(v));
    FreshAllKept(s, s');
    forall c | c in s'.clients ensures ClientSound(s', c) { assert ClientSound(s, c); }
    forall j | j in s'.jobs ensures JobSound(s', j) { assert j in s.jobs ==> JobSound(s, j); }
    forall c | c in s'.clients && c !in s'.faulted ensures Covered(s', c) {
      assert Covered(s, c);
      assert Job(c, v, false, None) in s'.jobs;
    }
  }

  lemma RegisterSound(s: State, step: Step)
    requires Sound(s) && (step.Register? || step.LoadVersion? || step.Disconnect?)
    ensures Sound(Apply(s, step))
  {
    var s' := Apply(s, step);
    FreshAllKept(s, s');
    forall c | c in s'.clients ensures ClientSound(s', c) {
      if c in s.clients { assert ClientSound(s, c); }
    }
    forall j | j in s'.jobs ensures JobSound(s', j) {
      if j in s.jobs { assert JobSound(s, j); }
    }
    forall c | c in s'.clients && c !in s'.faulted ensures Covered(s', c) {
      if c in s.clients {
        assert Covered(s, c);
        if step.LoadVersion? && c == step.conn && s' != s {
          assert Job(c, s.version, true, None) in s'.jobs;
        }
      }
    }
  }

  lemma EncodeSound(s: State, j: Job)
    requires Sound(s) && j in s.jobs && j.payload.None? && j.conn in s.clients
    ensures Sound(Apply(s, Encode(j)))
  {
    var s' := Apply(s, Encode(j));
    FreshAllKept(s, s');
    var p := Payload(j.version, Filter(Replay(s.log), s.clients[j.conn].sess), |s.log|);
    var j' := j.(payload := Some(p));
    assert JobSound(s, j);
    assert s.log[..|s.log|] == s.log;
    assert Fresh(s', s.clients[j.conn].sess, p);
    forall c | c in s'.clients ensures ClientSound(s', c) { assert ClientSound(s, c); }
    forall i | i in s'.jobs ensures JobSound(s', i) { assert i != j' ==> JobSound(s, i); }
    forall c | c in s'.clients && c !in s'.faulted ensures Covered(s', c) {
      assert Covered(s, c);
      JobCovers(s, s', c, j, j');
    }
  }

  /** Swapping a job for one with the same connection and version keeps coverage. */
  lemma JobCovers(s: State, s': State, c: Conn, j: Job, j': Job)
    requires c in s.clients && Covered(s, c)
    requires s' == s.(jobs := s.jobs - {j} + {j'}) && j'.conn == j.conn && j'.version == j.version
    ensures Covered(s', c)
  {
    if i :| i in s.jobs && i.conn == c && i.version == s.version {
      assert (if i == j then j' else i) in s'.jobs;
    }
  }

  lemma DeliverSound(s: State, j: Job)
    requires Sound(s) && j in s.jobs && j.payload.Some? && j.conn in s.clients
    ensures Sound(Apply(s, Deliver(j)))
  {
    var s' := Apply(s, Deliver(j));
    FreshAllKept(s, s');
    assert JobSound(s, j);
    forall c | c in s'.clients ensures ClientSound(s', c) {
      assert ClientSound(s, c);
    }
    forall i | i in s'.jobs ensures JobSound(s', i) { assert JobSound(s, i); }
    forall c | c in s'.clients && c !in s'.faulted ensures Covered(s', c) {
      assert Covered(s, c);
      DeliveryCovers(s, s', c, j);
    }
  }

  lemma DeliveryCovers(s: State, s': State, c: Conn, j: Job)
    requires c in s.clients && Covered(s, c) && JobSound(s, j)
    requires j.payload.Some? && j.conn in s.clients
    requires s' == s.(jobs := s.jobs - {j},
                      clients := s.clients[j.conn := Client(s.clients[j.conn].sess,
                                                            s.clients[j.conn].inbox + [j.payload.value])])
    ensures Covered(s', c)
  {
    var before, after := s.clients[c].inbox, s'.clients[c].inbox;
    assert before <= after;
    if k :| 0 <= k < |before| && before[k].version == s.version {
      assert after[k].version == s.version;
    }
    if i :| i in s.jobs && i.conn == c && i.version == s.version {
      if i == j {
        assert after[|before|].version == s.version;
      } else {
        assert i in s'.jobs;
      }
    }
  }

  /** A job leaves the set unwritten: its connection is gone or has faulted. */
  lemma DropSound(s: State, s': State, j: Job)
    requires Sound(s) && j in s.jobs
    requires s' == s.(jobs := s.jobs - {j}, faulted := s'.faulted) && s.faulted <= s'.faulted
    requires j.conn in s.clients ==> j.conn in s'.faulted
    ensures Sound(s')
  {
    FreshAllKept(s, s');
    forall c | c in s'.clients ensures ClientSound(s', c) { assert ClientSound(s, c); }
    forall i | i in s'.jobs ensures JobSound(s', i) { assert JobSound(s, i); }
    forall c | c in s'.clients && c !in s'.faulted ensures Covered(s', c) {
      assert Covered(s, c);
      if i :| i in s.jobs && i.conn == c && i.version == s.version {
        assert i in s'.jobs;
      }
    }
  }

  lemma ApplySound(s: State, step: Step)
    requires Sound(s)
    ensures Sound(Apply(s, step))
  {
    match step {
      case Change(m) => ChangeSound(s, m);
      case Announce(which) => AnnounceSound(s, which);
      case ListTargets(v) => if v in s.unlisted { ListTargetsSound(s, v); }
      case Encode(j) => if j in s.jobs && j.payload.None? && j.conn in s.clients { EncodeSound(s, j); }
      case Deliver(j) =>
        if j in s.jobs && j.payload.Some? {
          if j.conn in s.clients { DeliverSound(s, j); } else { DropSound(s, Apply(s, step), j); }
        }
      case Fail(j) => if j in s.jobs { DropSound(s, Apply(s, step), j); }
      case _ => RegisterSound(s, step);
    }
  }

  lemma {:induction false} RunSound(s: State, steps: seq<Step>)
    requires Sound(s)
    ensures Sound(Run(s, steps))
    decreases |steps|
  {
    if steps != [] {
      ApplySound(s, steps[0]);
      RunSound(Apply(s, steps[0]), steps[1..]);
    }
  }

  /**
   Whatever the interleaving, a payload carrying version v, first snapshot or
   broadcast, shows every mutation whose broadcast took a version up to v.
   */
  lemma VersionOrdersFreshness(steps: seq<Step>, c: Conn, k: nat)
    requires c in Run(Initial(), steps).clients && k < |Run(Initial(), steps).clients[c].inbox|
    ensures var s := Run(Initial(), steps);
      var p := s.clients[c].inbox[k];
      exists n :: 0 <= n <= |s.log|
                  && p.data == Filter(Replay(s.log[..n]), s.clients[c].sess)
                  && Shows(p.data, s.log[..n], s.clients[c].sess)
                  && forall i :: i in s.stamps && s.stamps[i] <= p.version ==> i < n
  {
    RunSound(Initial(), steps);
    var s := Run(Initial(), steps);
    assert ClientSound(s, c);
    var p := s.clients[c].inbox[k];
    assert Fresh(s, s.clients[c].sess, p);
    assert p.seen <= |s.log|;
    FilterShows(s.log[..p.seen], s.clients[c].sess);
  }

  /** No payload ever carries an item the client's session has no permission for. */
  lemma OnlyPermittedSent(steps: seq<Step>, c: Conn, k: nat, key: string)
    requires c in Run(Initial(), steps).clients && k < |Run(Initial(), steps).clients[c].inbox|
    requires key in Run(Initial(), steps).clients[c].inbox[k].data
    ensures var client := Run(Initial(), steps).clients[c];
      client.inbox[k].data[key].permission in client.sess.permissions
  {
    VersionOrdersFreshness(steps, c, k);
    var s := Run(Initial(), steps);
    var data := s.clients[c].inbox[k].data;
    var n :| 0 <= n <= |s.log| && Shows(data, s.log[..n], s.clients[c].sess);
    assert key in data && data[key] == data[key];
  }

  /** Nothing is under way, and every mutation was announced. */
  ghost predicate Quiescent(s: State) {
    && s.greeting == {} && s.unlisted == {} && s.jobs == {}
    && forall i :: 0 <= i < |s.log| ==> i in s.stamps
  }

  /**
   At rest, each connected client whose writes all went through holds a payload
   of the highest version, and every payload of that version is the projection
   of the final store, whatever order the writes landed in.
   */
  lemma HighestVersionIsFinal(steps: seq<Step>, c: Conn)
    requires var s := Run(Initial(), steps); Quiescent(s) && c in s.clients && c !in s.faulted
    ensures var s := Run(Initial(), steps);
      var inbox := s.clients[c].inbox;
      && (exists k :: 0 <= k < |inbox| && inbox[k].version == s.version)
      && (forall k :: 0 <= k < |inbox| ==> inbox[k].version <= s.version)
      && (forall k :: 0 <= k < |inbox| && inbox[k].version == s.version ==>
        && inbox[k].data == Filter(Replay(s.log), s.clients[c].sess)
        && Shows(inbox[k].data, s.log, s.clients[c].sess))
  {
    RunSound(Initial(), steps);
    var s := Run(Initial(), steps);
    var inbox := s.clients[c].inbox;
    assert ClientSound(s, c) && Covered(s, c);
    FilterShows(s.log, s.clients[c].sess);
    forall k | 0 <= k < |inbox| && inbox[k].version == s.version
      ensures inbox[k].data == Filter(Replay(s.log), s.clients[c].sess)
    {
      var p := inbox[k];
      assert Fresh(s, s.clients[c].sess, p);
      assert p.seen !in s.stamps;
      assert s.log[..p.seen] == s.log;
    }
  }
}
