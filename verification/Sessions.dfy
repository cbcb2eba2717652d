/**
 Cookie sessions: the session object, the response writer that saves it before the headers go out,
 and the cookie that carries it, against a session kept on the server.
 */
module Sessions {
  import opened Options
  import opened Binary64

  type Time = int

  /** The values a handler may store. JSON gives numbers back as binary64. */
  datatype Value = Str(s: string) | Bool(b: bool) | Number64(n: Int64) | Number(i: Int64) | Float64(x: real)
  type Data = map<string, Value>

  function Read(v: Value): Value {
    match v
    case Number64(n) => Float64(Round(n) as real)
    case Number(n) => Float64(Round(n) as real)
    case _ => v
  }

  function ReadAll(data: Data): Data {
    map key | key in data :: Read(data[key])
  }

  /** What the store keeps of a session. */
  datatype Record = Record(id: string, data: Data, userID: Int64, createdAt: Time, expiresAt: Option<Time>)

  /** A session in the hands of one request. */
  datatype Session = Session(record: Record, isNew: bool, destroyed: bool, regenerated: bool,
                             oldID: string, modified: bool, maxAge: int)

  datatype Action =
    | Set(key: string, value: Value)
    | Regenerate(newID: string)
    | Destroy
    | SetMaxAge(seconds: int, now: Time)
    | WriteHeader(code: int)
    | Write
    | Flush

  predicate Writes(a: Action) {
    a.WriteHeader? || a.Write? || a.Flush?
  }

  function Change(r: Record, a: Action): Record {
    match a
    case Set(key, value) => r.(data := r.data[key := value])
    case Regenerate(newID) => r.(id := newID)
    case SetMaxAge(seconds, now) => r.(expiresAt := Some(now + seconds))
    case _ => r
  }

  function Act(s: Session, a: Action): Session {
    var t := s.(record := Change(s.record, a), modified := s.modified || !Writes(a));
    match a
    case Regenerate(_) => t.(oldID := s.record.id, regenerated := true)
    case Destroy => t.(destroyed := true)
    case SetMaxAge(seconds, _) => t.(maxAge := seconds)
    case _ => t
  }

  class SessionObject {
    var record: Record
    var isNew: bool
    var destroyed: bool
    var regenerated: bool
    var oldID: string
    var modified: bool
    var maxAge: int

    function View(): Session
      reads this
    {
      Session(record, isNew, destroyed, regenerated, oldID, modified, maxAge)
    }

    constructor (record: Record, isNew: bool)
      ensures View() == Opened(record, isNew)
    {
      this.record, this.isNew := record, isNew;
      destroyed, regenerated, oldID, modified, maxAge := false, false, "", false, 0;
    }

    method Set(key: string, value: Value)
      modifies this
      ensures View() == Act(old(View()), Action.Set(key, value))
      ensures View() == old(View()).(record := record, modified := true)
      ensures record == old(record).(data := old(record).data[key := value])
    {
      record := record.(data := record.data[key := value]);
      modified := true;
    }

    method Regenerate(newID: string)
      modifies this
      ensures View() == Act(old(View()), Action.Regenerate(newID))
      ensures View() ==
        old(View()).(record := record, oldID := old(record).id, regenerated := true, modified := true)
      ensures record == old(record).(id := newID)
    {
      oldID := record.id;
      record := record.(id := newID);
      regenerated, modified := true, true;
    }

    method Destroy()
      modifies this
      ensures View() == Act(old(View()), Action.Destroy)
      ensures View() == old(View()).(destroyed := true, modified := true)
    {
      destroyed, modified := true, true;
    }

    method SetMaxAge(seconds: int, now: Time)
      modifies this
      ensures View() == Act(old(View()), Action.SetMaxAge(seconds, now))
      ensures View() == old(View()).(record := record, maxAge := seconds, modified := true)
      ensures record == old(record).(expiresAt := Some(now + seconds))
    {
      maxAge := seconds;
      record := record.(expiresAt := Some(now + seconds));
      modified := true;
    }
  }

  function Opened(record: Record, isNew: bool): Session {
    Session(record, isNew, false, false, "", false, 0)
  }

  // ----- The cookie -----

  /** Encoding then decoding reads every value back from JSON; sealing and opening cancel. */
  function Encode(r: Record): Record {
    r.(data := ReadAll(r.data))
  }

  function Decode(cookie: Record, now: Time): Option<Record> {
    if cookie.expiresAt.Some? && now > cookie.expiresAt.value then None else Some(cookie)
  }

  /** A cookie in the browser, with the max-age it came with. */
  datatype Cookie = Cookie(record: Record, maxAge: int)

  datatype SetCookie = Clear | Store(cookie: Cookie)

  /** saveSession: the cookie it sets, if any. */
  function Saved(s: Session, cfgMaxAge: int): Option<SetCookie> {
    if s.destroyed then Some(Clear)
    else if !s.isNew && !s.modified then None
    else Some(Store(Cookie(Encode(s.record), if s.maxAge > 0 then s.maxAge else cfgMaxAge)))
  }

  function NewRecord(freshID: string, now: Time): Record {
    Record(freshID, map[], 0, now, None)
  }

  /** loadSession, from the store's record. */
  function Load(kept: Option<Record>, freshID: string, now: Time): Session {
    match (if kept.Some? then Decode(kept.value, now) else None)
    case Some(r) => Opened(r, false)
    case None => Opened(NewRecord(freshID, now), true)
  }

  /** The browser keeps the last cookie it was told to keep. */
  function Keep(jar: Option<Cookie>, sent: Option<SetCookie>): Option<Cookie> {
    match sent
    case None => jar
    case Some(Clear) => None
    case Some(Store(cookie)) => Some(cookie)
  }

  /** A request carries the cookie without its max-age. */
  function Content(jar: Option<Cookie>): Option<Record> {
    if jar.Some? then Some(jar.value.record) else None
  }

  /** The response: cookies added before the headers went out count, later ones are lost. */
  class SessionWriter {
    const sess: SessionObject
    const cfgMaxAge: int
    var headerWritten: bool
    var headersOut: bool
    var sent: Option<SetCookie>
    var saves: nat
    var lateSaves: nat

    constructor (sess: SessionObject, cfgMaxAge: int)
      ensures this.sess == sess && this.cfgMaxAge == cfgMaxAge
      ensures !headerWritten && !headersOut && sent == None && saves == 0 && lateSaves == 0
    {
      this.sess, this.cfgMaxAge := sess, cfgMaxAge;
      headerWritten, headersOut, sent, saves, lateSaves := false, false, None, 0, 0;
    }

    predicate Valid()
      reads this
    {
      headersOut == headerWritten && lateSaves == 0 && saves == (if headerWritten then 1 else 0)
    }

    method SaveSession()
      modifies this
      ensures headerWritten == old(headerWritten) && headersOut == old(headersOut)
      ensures saves == old(saves) + 1 && lateSaves == old(lateSaves) + (if headersOut then 1 else 0)
      ensures sent == if headersOut then old(sent) else
        var saved := Saved(sess.View(), cfgMaxAge); if saved.Some? then saved else old(sent)
    {
      saves := saves + 1;
      if headersOut {
        lateSaves := lateSaves + 1;
      } else {
        var saved := Saved(sess.View(), cfgMaxAge);
        if saved.Some? {
          sent := saved;
        }
      }
    }

    /** WriteHeader, Write and Flush alike: the first of them saves, then the headers go out. */
    method Send()
      requires Valid()
      modifies this
      ensures Valid() && headerWritten
      ensures old(headerWritten) ==> sent == old(sent)
      ensures !old(headerWritten) && old(sent) == None ==> sent == Saved(sess.View(), cfgMaxAge)
    {
      if !headerWritten {
        SaveSession();
        headerWritten := true;
      }
      headersOut := true;
    }
  }

  function ActAll(s: Session, actions: seq<Action>): Session
    decreases actions
  {
    if actions == [] then s else ActAll(Act(s, actions[0]), actions[1..])
  }

  /** What a handler does before its first write, or its end. */
  function Changes(actions: seq<Action>): seq<Action> {
    if actions == [] || Writes(actions[0]) then [] else [actions[0]] + Changes(actions[1..])
  }

  /** The session as the first write finds it. */
  function UntilWrite(s: Session, actions: seq<Action>): Session {
    ActAll(s, Changes(actions))
  }

  /** The first WriteHeader, Write or Flush ends the changes that count. */
  lemma {:induction false} ChangesEnd(actions: seq<Action>, i: nat)
    requires i <= |actions|
    requires forall j :: 0 <= j < i ==> !actions[j].WriteHeader? && !actions[j].Write? && !actions[j].Flush?
    requires i < |actions| ==> actions[i].WriteHeader? || actions[i].Write? || actions[i].Flush?
    ensures Changes(actions) == actions[..i]
    decreases i
  {
    if i > 0 {
      ChangesEnd(actions[1..], i - 1);
      assert actions[..i] == [actions[0]] + actions[1..][..i - 1];
    }
  }

  predicate HasWrite(actions: seq<Action>) {
    exists i :: 0 <= i < |actions| && Writes(actions[i])
  }

  lemma {:induction false} ActAllAppend(s: Session, xs: seq<Action>, ys: seq<Action>)
    ensures ActAll(s, xs + ys) == ActAll(ActAll(s, xs), ys)
    decreases xs
  {
    if xs == [] {
      assert xs + ys == ys;
    } else {
      assert (xs + ys)[1..] == xs[1..] + ys;
      ActAllAppend(Act(s, xs[0]), xs[1..], ys);
    }
  }

  lemma {:induction false} ChangesAppend(actions: seq<Action>, a: Action)
    ensures Changes(actions + [a])
      == if HasWrite(actions) || Writes(a) then Changes(actions) else Changes(actions) + [a]
    ensures HasWrite(actions + [a]) == (HasWrite(actions) || Writes(a))
    decreases actions
  {
    assert (actions + [a])[|actions|] == a;
    if actions != [] {
      assert (actions + [a])[1..] == actions[1..] + [a];
      assert actions == [actions[0]] + actions[1..];
      if !Writes(actions[0]) {
        ChangesAppend(actions[1..], a);
      }
    }
  }

  lemma UntilWriteAppend(s: Session, actions: seq<Action>, a: Action)
    ensures UntilWrite(s, actions + [a])
      == if HasWrite(actions) || Writes(a) then UntilWrite(s, actions) else Act(UntilWrite(s, actions), a)
    ensures HasWrite(actions + [a]) == (HasWrite(actions) || Writes(a))
  {
    ChangesAppend(actions, a);
    ActAllAppend(s, Changes(actions), [a]);
  }

  /** One request through the session middleware. However the handler mixes its writes with changes
      of the session, the session is saved exactly once, before any header leaves, and the browser
      ends up with what the session was at the first write. */
  method ServeRequest(jar: Option<Cookie>, freshID: string, now: Time, cfgMaxAge: int, actions: seq<Action>)
    returns (next: Option<Cookie>, saves: nat, lateSaves: nat)
    ensures next == Keep(jar, Saved(UntilWrite(Load(Content(jar), freshID, now), actions), cfgMaxAge))
    ensures saves == 1 && lateSaves == 0
  {
    var loaded := Load(Content(jar), freshID, now);
    var sess := new SessionObject(loaded.record, loaded.isNew);
    var sw := new SessionWriter(sess, cfgMaxAge);
    assert actions[..0] == [];
    for i := 0 to |actions|
      invariant sw.Valid() && sw.headerWritten == HasWrite(actions[..i])
      invariant !sw.headerWritten ==> sess.View() == UntilWrite(loaded, actions[..i]) && sw.sent == None
      invariant sw.headerWritten ==> sw.sent == Saved(UntilWrite(loaded, actions[..i]), cfgMaxAge)
    {
      UntilWriteAppend(loaded, actions[..i], actions[i]);
      assert actions[..i + 1] == actions[..i] + [actions[i]];
      match actions[i]
      case Set(key, value) => sess.Set(key, value);
      case Regenerate(newID) => sess.Regenerate(newID);
      case Destroy => sess.Destroy();
      case SetMaxAge(seconds, at) => sess.SetMaxAge(seconds, at);
      case WriteHeader(_) => sw.Send();
      case Write => sw.Send();
      case Flush => sw.Send();
    }
    assert actions[..|actions|] == actions;
    if !sw.headerWritten {
      sw.SaveSession();
    }
    next, saves, lateSaves := Keep(jar, sw.sent), sw.saves, sw.lateSaves;
  }

  // ----- The session kept on the server -----

  datatype Request = Request(now: Time, freshID: string, actions: seq<Action>)

  /** A store that saves at the first write, as the cookie has to. */
  function ServerStep(kept: Option<Record>, r: Request): Option<Record> {
    var s := UntilWrite(Load(kept, r.freshID, r.now), r.actions);
    if s.destroyed then None else Some(s.record)
  }

  /** A store that keeps every change, whenever the handler makes it. */
  function KeepStep(kept: Option<Record>, r: Request): Option<Record> {
    var s := ActAll(Load(kept, r.freshID, r.now), r.actions);
    if s.destroyed then None else Some(s.record)
  }

  function CookieStep(jar: Option<Cookie>, r: Request, cfgMaxAge: int): Option<Cookie> {
    Keep(jar, Saved(UntilWrite(Load(Content(jar), r.freshID, r.now), r.actions), cfgMaxAge))
  }

  function ServerRun(kept: Option<Record>, rs: seq<Request>): Option<Record>
    decreases rs
  {
    if rs == [] then kept else ServerRun(ServerStep(kept, rs[0]), rs[1..])
  }

  function KeepRun(kept: Option<Record>, rs: seq<Request>): Option<Record>
    decreases rs
  {
    if rs == [] then kept else KeepRun(KeepStep(kept, rs[0]), rs[1..])
  }

  function CookieRun(jar: Option<Cookie>, rs: seq<Request>, cfgMaxAge: int): Option<Cookie>
    decreases rs
  {
    if rs == [] then jar else CookieRun(CookieStep(jar, rs[0], cfgMaxAge), rs[1..], cfgMaxAge)
  }

  function Carried(kept: Option<Record>): Option<Record> {
    if kept.Some? then Some(Encode(kept.value)) else None
  }

  /** `s` is what a request sees of the server's session `t` when a cookie carried it. */
  predicate Sees(s: Session, t: Session) {
    Encode(s.record) == Encode(t.record) && s == t.(record := s.record)
  }

  lemma ReadTwice(data: Data, key: string, value: Value)
    ensures ReadAll(ReadAll(data)) == ReadAll(data)
    ensures ReadAll(data[key := value]) == ReadAll(data)[key := Read(value)]
  {
  }

  lemma ActSees(s: Session, t: Session, a: Action)
    requires Sees(s, t)
    ensures Sees(Act(s, a), Act(t, a))
  {
    if a.Set? {
      ReadTwice(s.record.data, a.key, a.value);
      ReadTwice(t.record.data, a.key, a.value);
    }
  }

  lemma {:induction false} ActAllSees(s: Session, t: Session, actions: seq<Action>)
    requires Sees(s, t)
    ensures Sees(ActAll(s, actions), ActAll(t, actions))
    decreases actions
  {
    if actions != [] {
      ActSees(s, t, actions[0]);
      ActAllSees(Act(s, actions[0]), Act(t, actions[0]), actions[1..]);
    }
  }

  lemma {:induction false} OnlyChanges(actions: seq<Action>)
    ensures forall a :: a in Changes(actions) ==> !Writes(a)
  {
    if actions != [] && !Writes(actions[0]) {
      OnlyChanges(actions[1..]);
    }
  }

  /** Changes mark the session, and only Destroy and SetMaxAge have more to say about its cookie. */
  lemma {:induction false} MarksOf(s: Session, changes: seq<Action>)
    requires forall a :: a in changes ==> !Writes(a)
    ensures var t := ActAll(s, changes);
      && t.isNew == s.isNew
      && t.modified == (s.modified || changes != [])
      && t.destroyed == (s.destroyed || Action.Destroy in changes)
      && ((forall a :: a in changes ==> !a.SetMaxAge?) ==> t.maxAge == s.maxAge)
    decreases changes
  {
    if changes != [] {
      assert changes == [changes[0]] + changes[1..];
      MarksOf(Act(s, changes[0]), changes[1..]);
    }
  }

  lemma StepCarries(jar: Option<Cookie>, kept: Option<Record>, r: Request, cfgMaxAge: int)
    requires Content(jar) == Carried(kept)
    ensures Content(CookieStep(jar, r, cfgMaxAge)) == Carried(ServerStep(kept, r))
  {
    var s, t := Load(Content(jar), r.freshID, r.now), Load(kept, r.freshID, r.now);
    if kept.Some? {
      ReadTwice(kept.value.data, "", Bool(false));
    }
    ActAllSees(s, t, Changes(r.actions));
    OnlyChanges(r.actions);
    MarksOf(s, Changes(r.actions));
    MarksOf(t, Changes(r.actions));
  }

  /** Over any run of requests the session a cookie carries is the one that a server saving at the
      same moments would keep, as JSON reads it back; it may start from nothing (`kept` None). */
  lemma {:induction false} CookieRefinesServer(jar: Option<Cookie>, kept: Option<Record>, rs: seq<Request>,
                                               cfgMaxAge: int)
    requires Content(jar) == Carried(kept)
    ensures Content(CookieRun(jar, rs, cfgMaxAge)) == Carried(ServerRun(kept, rs))
    decreases rs
  {
    if rs != [] {
      StepCarries(jar, kept, rs[0], cfgMaxAge);
      CookieRefinesServer(CookieStep(jar, rs[0], cfgMaxAge), ServerStep(kept, rs[0]), rs[1..], cfgMaxAge);
    }
  }

  // ----- What a request finds -----

  /** The session that the i-th request of a run starts with. */
  function Found(jar: Option<Cookie>, rs: seq<Request>, i: nat, cfgMaxAge: int): Session
    requires i < |rs|
  {
    Load(Content(CookieRun(jar, rs[..i], cfgMaxAge)), rs[i].freshID, rs[i].now)
  }

  /** The handler gets the cookie's record as it is, unless that has expired; then, as without a cookie,
      it gets a new session that knows nothing. */
  lemma LoadExactly(jar: Option<Cookie>, freshID: string, now: Time)
    ensures var s := Load(Content(jar), freshID, now);
      && !s.modified && !s.destroyed && !s.regenerated && s.maxAge == 0 && s.oldID == ""
      && if jar.Some? && (jar.value.record.expiresAt.Some? ==> now <= jar.value.record.expiresAt.value)
         then s.record == jar.value.record && !s.isNew
         else s.record.id == freshID && s.record.data == map[] && s.record.userID == 0
              && s.record.createdAt == now && s.record.expiresAt == None && s.isNew
  {
  }

  predicate ExpiredAt(jar: Option<Cookie>, now: Time) {
    jar.Some? && jar.value.record.expiresAt.Some? && now > jar.value.record.expiresAt.value
  }

  /** From a request on that finds its cookie expired, everything is as if there had been no cookie: what
      was set before is in no later cookie and is found by no later request. */
  lemma ExpiredIsForgotten(jar: Option<Cookie>, rs: seq<Request>, i: nat, cfgMaxAge: int)
    requires rs != [] && ExpiredAt(jar, rs[0].now) && i < |rs|
    ensures CookieRun(jar, rs, cfgMaxAge) == CookieRun(None, rs, cfgMaxAge)
    ensures Found(jar, rs, i, cfgMaxAge) == Found(None, rs, i, cfgMaxAge)
  {
    MarksOf(Load(None, rs[0].freshID, rs[0].now), Changes(rs[0].actions)) by {
      OnlyChanges(rs[0].actions);
    }
    assert CookieStep(jar, rs[0], cfgMaxAge) == CookieStep(None, rs[0], cfgMaxAge);
    if i > 0 {
      assert rs[..i][0] == rs[0];
    }
  }

  /** In the middle of a run. */
  lemma {:induction false} ForgottenAfter(jar: Option<Cookie>, rs: seq<Request>, i: nat, j: nat, cfgMaxAge: int)
    requires i <= j < |rs| && ExpiredAt(CookieRun(jar, rs[..i], cfgMaxAge), rs[i].now)
    ensures Found(jar, rs, j, cfgMaxAge) == Found(None, rs[i..], j - i, cfgMaxAge)
  {
    ExpiredIsForgotten(CookieRun(jar, rs[..i], cfgMaxAge), rs[i..], j - i, cfgMaxAge);
    RunSplits(jar, rs[..i], rs[i..j], cfgMaxAge);
    assert rs[..i] + rs[i..j] == rs[..j] && rs[i..][..j - i] == rs[i..j];
  }

  lemma {:induction false} RunSplits(jar: Option<Cookie>, xs: seq<Request>, ys: seq<Request>, cfgMaxAge: int)
    ensures CookieRun(jar, xs + ys, cfgMaxAge) == CookieRun(CookieRun(jar, xs, cfgMaxAge), ys, cfgMaxAge)
    decreases xs
  {
    if xs == [] {
      assert xs + ys == ys;
    } else {
      assert (xs + ys)[1..] == xs[1..] + ys;
      RunSplits(CookieStep(jar, xs[0], cfgMaxAge), xs[1..], ys, cfgMaxAge);
    }
  }

  // ----- Changes after the first write -----

  predicate ChangesFirst(actions: seq<Action>) {
    forall i, j :: 0 <= i < j < |actions| && Writes(actions[i]) ==> Writes(actions[j])
  }

  /** A handler that changes its session only before it writes loses no change. */
  lemma {:induction false} NothingLost(s: Session, actions: seq<Action>)
    requires ChangesFirst(actions)
    ensures UntilWrite(s, actions) == ActAll(s, actions)
    decreases actions
  {
    if actions != [] {
      forall i, j | 0 <= i < j < |actions[1..]| && Writes(actions[1..][i]) ensures Writes(actions[1..][j]) {
        assert actions[1..][i] == actions[i + 1] && actions[1..][j] == actions[j + 1];
      }
      if Writes(actions[0]) {
        OnlyWrites(s, actions);
      } else {
        NothingLost(Act(s, actions[0]), actions[1..]);
      }
    }
  }

  lemma {:induction false} OnlyWrites(s: Session, actions: seq<Action>)
    requires forall i :: 0 <= i < |actions| ==> Writes(actions[i])
    ensures ActAll(s, actions) == s
    decreases actions
  {
    if actions != [] {
      OnlyWrites(s, actions[1..]);
    }
  }

  /** When no handler changes its session after a write, the cookie carries over any run what a server
      that keeps every change would keep. */
  lemma {:induction false} CookieKeepsAll(jar: Option<Cookie>, kept: Option<Record>, rs: seq<Request>, cfgMaxAge: int)
    requires Content(jar) == Carried(kept) && forall r :: r in rs ==> ChangesFirst(r.actions)
    ensures Content(CookieRun(jar, rs, cfgMaxAge)) == Carried(KeepRun(kept, rs))
    decreases rs
  {
    if rs != [] {
      NothingLost(Load(kept, rs[0].freshID, rs[0].now), rs[0].actions);
      StepCarries(jar, kept, rs[0], cfgMaxAge);
      CookieKeepsAll(CookieStep(jar, rs[0], cfgMaxAge), KeepStep(kept, rs[0]), rs[1..], cfgMaxAge);
    }
  }

  /** What a handler does from its first write on. */
  function Late(actions: seq<Action>): seq<Action> {
    if actions == [] || Writes(actions[0]) then actions else Late(actions[1..])
  }

  lemma {:induction false} ChangesThenLate(actions: seq<Action>)
    ensures actions == Changes(actions) + Late(actions)
  {
    if actions != [] && !Writes(actions[0]) {
      ChangesThenLate(actions[1..]);
      assert actions == [actions[0]] + actions[1..];
    }
  }

  /** The parts of a record that a handler can set, and what they read as. */
  datatype Part = Key(key: string) | Id | Expiry
  datatype Field = Missing | Holds(value: Value) | Named(id: string) | Expires(at: Option<Time>)

  function PartOf(a: Action): Option<Part> {
    match a
    case Set(key, _) => Some(Key(key))
    case Regenerate(_) => Some(Id)
    case SetMaxAge(_, _) => Some(Expiry)
    case _ => None
  }

  /** What the action sets its part to. */
  function Target(a: Action): Field {
    match a
    case Set(_, value) => Holds(Read(value))
    case Regenerate(newID) => Named(newID)
    case SetMaxAge(seconds, now) => Expires(Some(now + seconds))
    case _ => Missing
  }

  function FieldOf(r: Record, p: Part): Field {
    match p
    case Key(key) => if key in r.data then Holds(Read(r.data[key])) else Missing
    case Id => Named(r.id)
    case Expiry => Expires(r.expiresAt)
  }

  /** The i-th action is the last one on its part. */
  predicate Decides(actions: seq<Action>, i: nat)
    requires i < |actions|
  {
    PartOf(actions[i]).Some? && forall j :: i < j < |actions| ==> PartOf(actions[j]) != PartOf(actions[i])
  }

  /** The session is destroyed already; or it is not destroyed later, and the last action on each part of
      the record finds what it would set. */
  predicate NoNetChange(s: Session, late: seq<Action>) {
    || s.destroyed
    || (Action.Destroy !in late
        && forall i :: 0 <= i < |late| && Decides(late, i) ==>
             FieldOf(s.record, PartOf(late[i]).value) == Target(late[i]))
  }

  lemma ReadAlike(r: Record, t: Record)
    requires r.userID == t.userID && r.createdAt == t.createdAt
    ensures Encode(r) == Encode(t) <==> forall p :: FieldOf(r, p) == FieldOf(t, p)
  {
    if forall p :: FieldOf(r, p) == FieldOf(t, p) {
      assert FieldOf(r, Id) == FieldOf(t, Id) && FieldOf(r, Expiry) == FieldOf(t, Expiry);
      forall key
        ensures key in ReadAll(r.data) <==> key in ReadAll(t.data)
        ensures key in ReadAll(r.data) ==> ReadAll(r.data)[key] == ReadAll(t.data)[key]
      {
        assert FieldOf(r, Key(key)) == FieldOf(t, Key(key));
      }
      assert ReadAll(r.data) == ReadAll(t.data);
    } else {
      var p :| FieldOf(r, p) != FieldOf(t, p);
      if p.Key? {
        assert p.key in r.data ==> ReadAll(r.data)[p.key] == Read(r.data[p.key]);
        assert p.key in t.data ==> ReadAll(t.data)[p.key] == Read(t.data[p.key]);
        assert p.key in r.data <==> p.key in ReadAll(r.data);
        assert p.key in t.data <==> p.key in ReadAll(t.data);
      }
    }
  }

  lemma ActSets(s: Session, a: Action, p: Part)
    ensures FieldOf(Act(s, a).record, p) == if PartOf(a) == Some(p) then Target(a) else FieldOf(s.record, p)
  {
  }

  lemma {:induction false} OnlyParts(s: Session, actions: seq<Action>)
    ensures var t := ActAll(s, actions);
      && t.record.userID == s.record.userID && t.record.createdAt == s.record.createdAt
      && t.destroyed == (s.destroyed || Action.Destroy in actions)
    decreases actions
  {
    if actions != [] {
      assert actions == [actions[0]] + actions[1..];
      OnlyParts(Act(s, actions[0]), actions[1..]);
    }
  }

  /** The last action on a part decides how it ends; without one it stays as it is. */
  lemma {:induction false} LastDecides(s: Session, actions: seq<Action>, p: Part) returns (last: Option<nat>)
    ensures last.Some? ==>
      && last.value < |actions| && PartOf(actions[last.value]) == Some(p) && Decides(actions, last.value)
      && FieldOf(ActAll(s, actions).record, p) == Target(actions[last.value])
    ensures last == None ==>
      && (forall i :: 0 <= i < |actions| ==> PartOf(actions[i]) != Some(p))
      && FieldOf(ActAll(s, actions).record, p) == FieldOf(s.record, p)
    decreases |actions|
  {
    if actions == [] {
      last := None;
    } else {
      var n := |actions| - 1;
      var before, a := actions[..n], actions[n];
      assert actions == before + [a];
      last := LastDecides(s, before, p);
      ActAllAppend(s, before, [a]);
      assert ActAll(ActAll(s, before), [a]) == Act(ActAll(s, before), a);
      ActSets(ActAll(s, before), a, p);
      hide Act, FieldOf, Target, PartOf, ActAll;
      if PartOf(a) == Some(p) {
        last := Some(n);
      }
    }
  }

  lemma NetChange(s: Session, late: seq<Action>)
    ensures var t := ActAll(s, late);
      s.destroyed || (!t.destroyed && Encode(s.record) == Encode(t.record)) <==> NoNetChange(s, late)
  {
    var t := ActAll(s, late);
    OnlyParts(s, late);
    ReadAlike(s.record, t.record);
    if Encode(s.record) == Encode(t.record) {
      forall i | 0 <= i < |late| && Decides(late, i)
        ensures FieldOf(s.record, PartOf(late[i]).value) == Target(late[i])
      {
        var last := LastDecides(s, late, PartOf(late[i]).value);
        assert last == Some(i);
      }
    }
    if NoNetChange(s, late) && !s.destroyed {
      forall p ensures FieldOf(s.record, p) == FieldOf(t.record, p) {
        var last := LastDecides(s, late, p);
      }
    }
  }

  /** What one handler's request does to the cookie is what it does on a server that keeps every change,
      exactly when the handler changes nothing on balance from its first write on. */
  lemma LateChangeLost(jar: Option<Cookie>, kept: Option<Record>, r: Request, cfgMaxAge: int)
    requires Content(jar) == Carried(kept)
    ensures Content(CookieStep(jar, r, cfgMaxAge)) == Carried(KeepStep(kept, r))
      <==> NoNetChange(UntilWrite(Load(kept, r.freshID, r.now), r.actions), Late(r.actions))
  {
    StepCarries(jar, kept, r, cfgMaxAge);
    var s := Load(kept, r.freshID, r.now);
    ChangesThenLate(r.actions);
    ActAllAppend(s, Changes(r.actions), Late(r.actions));
    OnlyParts(UntilWrite(s, r.actions), Late(r.actions));
    NetChange(UntilWrite(s, r.actions), Late(r.actions));
  }

  /** A session destroyed only after the first write survives in the browser, whatever else the handler
      does. */
  lemma LateDestroyLost(jar: Option<Cookie>, kept: Option<Record>, r: Request, cfgMaxAge: int)
    requires Content(jar) == Carried(kept)
    requires Action.Destroy in Late(r.actions) && Action.Destroy !in Changes(r.actions)
    ensures CookieStep(jar, r, cfgMaxAge).Some? && KeepStep(kept, r) == None
  {
    StepCarries(jar, kept, r, cfgMaxAge);
    var s := Load(kept, r.freshID, r.now);
    ChangesThenLate(r.actions);
    OnlyParts(s, r.actions);
    OnlyParts(s, Changes(r.actions));
  }

  /** Cookie and server agree now and after each of the requests. */
  predicate Agreeing(jar: Option<Cookie>, kept: Option<Record>, rs: seq<Request>, cfgMaxAge: int)
    decreases rs
  {
    && Content(jar) == Carried(kept)
    && (rs != [] ==> Agreeing(CookieStep(jar, rs[0], cfgMaxAge), KeepStep(kept, rs[0]), rs[1..], cfgMaxAge))
  }

  predicate NothingLate(kept: Option<Record>, rs: seq<Request>)
    decreases rs
  {
    rs != [] ==>
      && NoNetChange(UntilWrite(Load(kept, rs[0].freshID, rs[0].now), rs[0].actions), Late(rs[0].actions))
      && NothingLate(KeepStep(kept, rs[0]), rs[1..])
  }

  /** Over a run: the cookie agrees with the server that keeps every change after every request exactly
      when no request changes anything on balance from its first write on. */
  lemma {:induction false} KeepsAllExactly(jar: Option<Cookie>, kept: Option<Record>, rs: seq<Request>, cfgMaxAge: int)
    requires Content(jar) == Carried(kept)
    ensures Agreeing(jar, kept, rs, cfgMaxAge) <==> NothingLate(kept, rs)
    decreases rs
  {
    if rs != [] {
      LateChangeLost(jar, kept, rs[0], cfgMaxAge);
      var one, next := CookieStep(jar, rs[0], cfgMaxAge), KeepStep(kept, rs[0]);
      if Content(one) == Carried(next) {
        KeepsAllExactly(one, next, rs[1..], cfgMaxAge);
      }
    }
  }

  // ----- The max-age of "remember me" -----

  /** The max-age is no part of the record. A request that finds a cookie and asks for no max-age of
      its own leaves the max-age alone exactly when it changes nothing before its first write; otherwise
      the cookie gets the configured one. */
  lemma MaxAgeSurvives(jar: Option<Cookie>, r: Request, cfgMaxAge: int)
    requires jar.Some? && Decode(jar.value.record, r.now).Some?
    requires forall a :: a in Changes(r.actions) ==> !a.SetMaxAge? && !a.Destroy?
    ensures var next := CookieStep(jar, r, cfgMaxAge);
      && next.Some?
      && (next.value.maxAge == jar.value.maxAge <==> Changes(r.actions) == [] || cfgMaxAge == jar.value.maxAge)
      && (Changes(r.actions) != [] ==> next.value.maxAge == cfgMaxAge)
  {
    OnlyChanges(r.actions);
    MarksOf(Load(Content(jar), r.freshID, r.now), Changes(r.actions));
  }

  /** The last SetMaxAge before the first write decides, when it is positive. */
  lemma MaxAgeChosen(jar: Option<Cookie>, r: Request, cfgMaxAge: int, before: seq<Action>, seconds: int, now: Time,
                     after: seq<Action>)
    requires Changes(r.actions) == before + [SetMaxAge(seconds, now)] + after
    requires Action.Destroy !in before && forall a :: a in after ==> !a.SetMaxAge? && !a.Destroy?
    ensures var next := CookieStep(jar, r, cfgMaxAge);
      next.Some? && next.value.maxAge == if seconds > 0 then seconds else cfgMaxAge
  {
    OnlyChanges(r.actions);
    var s := Load(Content(jar), r.freshID, r.now);
    var upTo := before + [SetMaxAge(seconds, now)];
    forall a | a in upTo || a in after ensures !Writes(a) {
      assert a in upTo + after;
    }
    ActAllAppend(s, upTo, after);
    ActAllAppend(s, before, [SetMaxAge(seconds, now)]);
    MarksOf(s, upTo);
    MarksOf(ActAll(s, upTo), after);
  }

  const MONTH := 2592000

  /** A login asks to be remembered for a month; one value set by the next request ends that. */
  lemma Forgets(id: string, key: string, value: Value, cfgMaxAge: int)
    requires cfgMaxAge != MONTH
    ensures var login, later := Request(0, id, [SetMaxAge(MONTH, 0)]), Request(1, id, [Action.Set(key, value)]);
      && var one := CookieRun(None, [login], cfgMaxAge);
      && var two := CookieRun(None, [login, later], cfgMaxAge);
      && one.Some? && one.value.maxAge == MONTH
      && two.Some? && two.value.maxAge == cfgMaxAge
      && two.value.record.expiresAt == Some(MONTH)
  {
    var login, later := Request(0, id, [SetMaxAge(MONTH, 0)]), Request(1, id, [Action.Set(key, value)]);
    var one := CookieStep(None, login, cfgMaxAge);
    assert ActAll(Load(None, id, 0), [SetMaxAge(MONTH, 0)]) == Act(Load(None, id, 0), SetMaxAge(MONTH, 0));
    assert Changes([SetMaxAge(MONTH, 0)]) == [SetMaxAge(MONTH, 0)];
    assert Changes(later.actions) == later.actions;
    assert ActAll(Load(Content(one), id, 1), later.actions) == Act(Load(Content(one), id, 1), Action.Set(key, value));
    MaxAgeSurvives(one, later, cfgMaxAge);
    assert [login, later][1..] == [later];
    assert CookieRun(one, [later], cfgMaxAge) == CookieStep(one, later, cfgMaxAge);
  }

  // ----- The user of a session -----

  /** A conversion that the language leaves open outside the 64-bit range. */
  function Truncate(x: real): Option<int> {
    var n := if x >= 0.0 then x.Floor else -((-x).Floor);
    if -INT64_END <= n < INT64_END then Some(n) else None
  }

  /** The user id to look up; None when the request is anonymous (or the conversion is undefined). */
  function UserOf(data: Data): Option<int> {
    if "user_id" !in data then None else
    var id := (match data["user_id"]
               case Number64(n) => Some(n)
               case Float64(x) => Truncate(x)
               case Number(n) => Some(n)
               case _ => None);
    if id == Some(0) then None else id
  }

  /** `u` is `x` without its fraction. */
  predicate Whole(x: real, u: int) {
    if x >= 0.0 then u as real <= x < (u + 1) as real else (u - 1) as real < x <= u as real
  }

  /** Who a session's data says the user is. */
  predicate Identifies(data: Data, u: int) {
    && u != 0 && "user_id" in data
    && match data["user_id"]
       case Number64(n) => n == u
       case Number(n) => n == u
       case Float64(x) => Whole(x, u) && -INT64_END <= u < INT64_END
       case _ => false
  }

  /** There is a user exactly when the data holds a number under "user_id" whose whole part is not 0, and
      it is that one; an absent key, a string, a boolean and 0 are nobody. */
  lemma UserExactly(data: Data)
    ensures forall u :: UserOf(data) == Some(u) <==> Identifies(data, u)
    ensures "user_id" !in data || data["user_id"].Str? || data["user_id"].Bool? || data["user_id"] == Number64(0)
      ==> UserOf(data) == None
  {
  }

  /** A user id set at login is recovered from the cookie exactly when it is a binary64 value. */
  lemma UserRecovered(data: Data, id: Int64)
    requires "user_id" in data && data["user_id"] == Number64(id)
    ensures UserOf(ReadAll(data)) == UserOf(data) <==> Representable(id)
  {
    RoundExact(id);
    RoundNear(id);
  }

  /** All ids up to 2^53 are recovered; 2^53 + 1 logs another user in. */
  lemma UserUpTo53Bits(data: Data, id: Int64)
    requires Abs(id) <= PRECISION
    ensures UserOf(ReadAll(data["user_id" := Number64(id)])) == UserOf(data["user_id" := Number64(id)])
    ensures UserOf(ReadAll(data["user_id" := Number64(PRECISION + 1)])) == Some(PRECISION)
  {
    ExactUpTo53Bits(id);
  }

  // ----- The user over runs -----

  predicate Leaves(r: Request, key: string) {
    forall a :: a in Changes(r.actions) ==> PartOf(a) != Some(Key(key))
  }

  /** A key that a request does not set before its first write is afterwards as the request found it, and
      gone with the session. */
  lemma KeyStays(jar: Option<Cookie>, r: Request, cfgMaxAge: int, key: string)
    requires Leaves(r, key)
    ensures var s, next := Load(Content(jar), r.freshID, r.now), CookieStep(jar, r, cfgMaxAge);
      next.Some? ==> FieldOf(next.value.record, Key(key)) == FieldOf(s.record, Key(key))
  {
    var s := Load(Content(jar), r.freshID, r.now);
    OnlyChanges(r.actions);
    MarksOf(s, Changes(r.actions));
    var last := LastDecides(s, Changes(r.actions), Key(key));
    ReadTwice(UntilWrite(s, r.actions).record.data, key, Bool(false));
  }

  /** What no handler can set stays with the session for good. */
  lemma StampsStay(jar: Option<Cookie>, r: Request, cfgMaxAge: int)
    ensures var s, next := Load(Content(jar), r.freshID, r.now), CookieStep(jar, r, cfgMaxAge);
      next.Some? ==>
        && next.value.record.userID == s.record.userID && next.value.record.createdAt == s.record.createdAt
        && next.value.record.id == UntilWrite(s, r.actions).record.id
        && next.value.record.expiresAt == UntilWrite(s, r.actions).record.expiresAt
  {
    var s := Load(Content(jar), r.freshID, r.now);
    OnlyChanges(r.actions);
    MarksOf(s, Changes(r.actions));
    OnlyParts(s, Changes(r.actions));
  }

  /** Who never logs in stays anonymous. */
  lemma {:induction false} StaysAnonymous(jar: Option<Cookie>, rs: seq<Request>, i: nat, cfgMaxAge: int)
    requires jar.Some? ==> "user_id" !in jar.value.record.data
    requires i < |rs| && forall r :: r in rs ==> Leaves(r, "user_id")
    ensures UserOf(Found(jar, rs, i, cfgMaxAge).record.data) == None
    decreases rs
  {
    if i > 0 {
      KeyStays(jar, rs[0], cfgMaxAge, "user_id");
      StaysAnonymous(CookieStep(jar, rs[0], cfgMaxAge), rs[1..], i - 1, cfgMaxAge);
      assert rs[..i][0] == rs[0] && rs[..i][1..] == rs[1..][..i - 1];
    }
  }

  /** What a later request reads of a value: numbers come back as binary64, everything else unchanged. */
  predicate Arrives(value: Value, found: Value) {
    match value
    case Number64(n) => found == Float64(Round(n) as real)
    case Number(n) => found == Float64(Round(n) as real)
    case _ => found == value
  }

  /** The last Set of a key before the first write is what the next request finds. */
  lemma SetIsFound(jar: Option<Cookie>, r: Request, cfgMaxAge: int, i: nat, next: Request)
    requires Action.Destroy !in Changes(r.actions)
    requires i < |Changes(r.actions)| && Changes(r.actions)[i].Set? && Decides(Changes(r.actions), i)
    requires !ExpiredAt(CookieStep(jar, r, cfgMaxAge), next.now)
    ensures var chosen, data := Changes(r.actions)[i], Found(jar, [r, next], 1, cfgMaxAge).record.data;
      chosen.key in data && Arrives(chosen.value, data[chosen.key])
  {
    var s, chosen := Load(Content(jar), r.freshID, r.now), Changes(r.actions)[i];
    OnlyChanges(r.actions);
    MarksOf(s, Changes(r.actions));
    var last := LastDecides(s, Changes(r.actions), Key(chosen.key));
    assert last == Some(i);
    assert [r, next][..1] == [r] && [r][1..] == [];
    assert CookieRun(jar, [r], cfgMaxAge) == CookieStep(jar, r, cfgMaxAge);
  }

  /** Nobody logs in or out, and no request finds its cookie expired. */
  predicate Undisturbed(jar: Option<Cookie>, rs: seq<Request>, cfgMaxAge: int)
    decreases rs
  {
    rs != [] ==>
      && !ExpiredAt(jar, rs[0].now) && Leaves(rs[0], "user_id") && Action.Destroy !in Changes(rs[0].actions)
      && Undisturbed(CookieStep(jar, rs[0], cfgMaxAge), rs[1..], cfgMaxAge)
  }

  predicate HasField(jar: Option<Cookie>, key: string, found: Value) {
    jar.Some? && key in jar.value.record.data && jar.value.record.data[key] == found && Read(found) == found
  }

  lemma FieldStays(jar: Option<Cookie>, r: Request, cfgMaxAge: int, found: Value)
    requires HasField(jar, "user_id", found) && Undisturbed(jar, [r], cfgMaxAge)
    ensures HasField(CookieStep(jar, r, cfgMaxAge), "user_id", found)
  {
    var s := Load(Content(jar), r.freshID, r.now);
    KeyStays(jar, r, cfgMaxAge, "user_id");
    OnlyChanges(r.actions);
    MarksOf(s, Changes(r.actions));
    assert FieldOf(s.record, Key("user_id")) == Holds(found);
  }

  lemma {:induction false} FieldIsFound(jar: Option<Cookie>, rs: seq<Request>, i: nat, cfgMaxAge: int, found: Value)
    requires HasField(jar, "user_id", found) && Undisturbed(jar, rs, cfgMaxAge) && i < |rs|
    ensures var data := Found(jar, rs, i, cfgMaxAge).record.data;
      "user_id" in data && data["user_id"] == found
    decreases rs
  {
    if i > 0 {
      FieldStays(jar, rs[0], cfgMaxAge, found);
      FieldIsFound(CookieStep(jar, rs[0], cfgMaxAge), rs[1..], i - 1, cfgMaxAge, found);
      assert rs[..i][0] == rs[0] && rs[..i][1..] == rs[1..][..i - 1];
    }
  }

  /** A login that stores a user id before the first write makes every request after it that user's, until
      somebody logs in or out or the cookie expires, exactly when the id is a binary64 value. */
  lemma LoggedIn(jar: Option<Cookie>, login: Request, at: nat, id: Int64, rs: seq<Request>, i: nat, cfgMaxAge: int)
    requires Action.Destroy !in Changes(login.actions) && id != 0
    requires at < |Changes(login.actions)| && Decides(Changes(login.actions), at)
    requires Changes(login.actions)[at] == Action.Set("user_id", Number64(id))
    requires Undisturbed(CookieStep(jar, login, cfgMaxAge), rs, cfgMaxAge) && i < |rs|
    ensures UserOf(Found(jar, [login] + rs, i + 1, cfgMaxAge).record.data) == Some(id) <==> Representable(id)
  {
    var one, all := CookieStep(jar, login, cfgMaxAge), [login] + rs;
    var found := Float64(Round(id) as real);
    SetIsFound(jar, login, cfgMaxAge, at, rs[0]);
    assert [login, rs[0]][..1] == [login] && [login][1..] == [];
    assert CookieRun(jar, [login], cfgMaxAge) == one;
    FieldIsFound(one, rs, i, cfgMaxAge, found);
    assert all[..i + 1][0] == login && all[..i + 1][1..] == rs[..i];
    var data := Found(jar, all, i + 1, cfgMaxAge).record.data;
    assert data == Found(one, rs, i, cfgMaxAge).record.data;
    RoundExact(id);
    RoundNear(id);
    UserExactly(data);
    assert Identifies(data, id) <==> Round(id) == id;
  }
}
