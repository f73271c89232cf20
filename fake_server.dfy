/** The in-browser fake server's in-memory store (`db` of `src/fakeServer/db.js`)
    and the helpers and request branches of `src/fakeServer/handlers.js` that write
    to it. Random ids become ids built from a serial number that every `nextId` call
    advances; clock readings (`completedAt`) are passed in as strings. */
module FakeServer {
  import opened Wrappers
  import opened Strings
  import TimeNormalizer

  // ------------------------------------------------------------------ records

  datatype Reminder = Reminder(
    id: string, title: string, description: string, time: string,
    frequency: string, status: string, nextDue: string, completedAt: Option<string>)

  /** A `scheduleToday` entry. The seed entries carry no id, and a mirrored entry's
      time is absent when `normalizeTime` gives up. */
  datatype ScheduleItem = ScheduleItem(
    id: Option<string>, time: Option<string>, task: string, frequency: string, status: string)

  /** An activity-feed event; `kind` is the source's `type`. */
  datatype Activity = Activity(
    id: string, title: string, description: string, kind: string, bgColor: string, borderColor: string)

  datatype Alert = Alert(
    id: string, title: string, severity: string, description: string, status: string, badge: string)

  datatype Email = Email(id: string, to: string, subject: string, body: string)

  datatype Member = Member(
    id: string, name: string, relation: string, email: string, photoUrl: Option<string>,
    trainingImages: seq<string>, imageData: Option<string>, primary: bool)

  datatype UnknownFace = UnknownFace(id: string, imageData: Option<string>)

  /** A detected face: its horizontal position (`x`, possibly missing) and crop. */
  datatype Face = Face(x: Option<real>, imageData: Option<string>)

  /** A value copy of every field of the store, used to say what a request changes. */
  datatype Store = Store(
    reminders: seq<Reminder>, scheduleToday: seq<ScheduleItem>, activity: seq<Activity>,
    alerts: seq<Alert>, emailOutbox: seq<Email>, pendingReminder: Option<string>,
    family: seq<Member>, unknownFaces: seq<UnknownFace>,
    caregiverEmail: string, primaryFamilyEmail: string, serial: nat, recogIndex: nat)

  // ------------------------------------------------------------ small helpers

  /** The id the `serial`-th call of `nextId(prefix)` hands out. */
  function FreshId(prefix: string, serial: nat): string {
    prefix + "_" + NatToString(serial)
  }

  /** Different calls of `nextId` with one prefix never hand out the same id. */
  lemma {:induction false} FreshIdsDistinct(prefix: string, a: nat, b: nat)
    requires a != b
    ensures FreshId(prefix, a) != FreshId(prefix, b)
  {
    var n := |prefix| + 1;
    assert FreshId(prefix, a)[n..] == NatToString(a);
    assert FreshId(prefix, b)[n..] == NatToString(b);
  }

  /** The first index at or after `k` whose element satisfies `p`: `findIndex`/`find`. */
  function FindFrom<T>(s: seq<T>, p: T -> bool, k: nat): (r: Option<nat>)
    decreases |s| - k
    ensures r.Some? ==> k <= r.value < |s| && p(s[r.value]) && forall j :: k <= j < r.value ==> !p(s[j])
    ensures r.None? ==> forall j :: k <= j < |s| ==> !p(s[j])
  {
    if k >= |s| then None else if p(s[k]) then Some(k) else FindFrom(s, p, k + 1)
  }

  function FindIndex<T>(s: seq<T>, p: T -> bool): (r: Option<nat>)
    ensures r.Some? ==> r.value < |s| && p(s[r.value]) && forall j :: 0 <= j < r.value ==> !p(s[j])
    ensures r.None? ==> forall j :: 0 <= j < |s| ==> !p(s[j])
  {
    FindFrom(s, p, 0)
  }

  // ------------------------------------------- the schedule built from reminders

  /** `time.includes("AM") || time.includes("PM")`. */
  predicate HasMeridiem(time: string) { Contains(time, "AM") || Contains(time, "PM") }

  /** The time a newly created reminder is mirrored into `scheduleToday` with. */
  function MirrorTime(time: string): (r: Option<string>)
    ensures HasMeridiem(time) ==> r == Some(time)
    ensures !HasMeridiem(time) ==> r == TimeNormalizer.NormalizeTime(time)
    ensures r.Some? ==> r.value == time || TimeNormalizer.IsClockString(r.value)
  {
    if HasMeridiem(time) then Some(time) else TimeNormalizer.NormalizeTime(time)
  }

  /** The time the regenerated schedule shows: kept when it carries AM/PM, else
      normalised, else kept as it was. */
  function ScheduleTime(time: string): (r: string)
    ensures HasMeridiem(time) ==> r == time
    ensures !HasMeridiem(time) && TimeNormalizer.NormalizeTime(time).Some? ==> r == TimeNormalizer.NormalizeTime(time).value
    ensures r == time || TimeNormalizer.IsClockString(r)
  {
    if HasMeridiem(time) then time else TimeNormalizer.NormalizeTime(time).GetOr(time)
  }

  /** The schedule status of a reminder status: completed and missed are kept,
      everything else (active, unknown) is pending. */
  function ScheduleStatus(status: string): (r: string)
    ensures r == "completed" || r == "missed" || r == "pending"
    ensures r == "completed" <==> status == "completed"
    ensures r == "missed" <==> status == "missed"
  {
    if status == "completed" then "completed" else if status == "missed" then "missed" else "pending"
  }

  function ScheduleEntry(r: Reminder): ScheduleItem {
    ScheduleItem(Some(r.id), Some(ScheduleTime(r.time)), r.title, OrElse(Some(r.frequency), "One-time"),
                 ScheduleStatus(r.status))
  }

  /** `regenerateScheduleFromReminders` without its sort: one entry per reminder, in
      reminder order, carrying the reminder's id and title, a non-empty frequency,
      a normalised time and a status derived from the reminder's. */
  function ScheduleOf(rs: seq<Reminder>): (s: seq<ScheduleItem>)
    ensures |s| == |rs|
    ensures forall i :: 0 <= i < |rs| ==>
      s[i].id == Some(rs[i].id) && s[i].task == rs[i].title
      && s[i].time == Some(ScheduleTime(rs[i].time))
      && s[i].frequency != ""
      && (rs[i].frequency != "" ==> s[i].frequency == rs[i].frequency)
      && s[i].status == ScheduleStatus(rs[i].status)
  {
    seq(|rs|, i requires 0 <= i < |rs| => ScheduleEntry(rs[i]))
  }

  /** `db.scheduleToday[sIdx] = { ...db.scheduleToday[sIdx], status: "completed" }`. */
  function MarkCompleted(s: seq<ScheduleItem>, idx: Option<nat>): (r: seq<ScheduleItem>)
    ensures |r| == |s|
    ensures forall i :: 0 <= i < |s| && idx != Some(i) ==> r[i] == s[i]
    ensures idx.Some? && idx.value < |s| ==> r[idx.value] == s[idx.value].(status := "completed")
  {
    if idx.Some? && idx.value < |s| then s[idx.value := s[idx.value].(status := "completed")] else s
  }

  // ------------------------------------------------------------ reminder lookup

  function HasId(id: string): Reminder -> bool { (r: Reminder) => r.id == id }

  function OpenTitled(t: string): Reminder -> bool { (r: Reminder) => Lower(r.title) == t && r.status != "completed" }

  /** The reminder `/api/reminders/complete` acts on: the first one with the given id
      (whatever its status), else the first not-yet-completed one whose lower-cased
      title equals the lower-cased, trimmed given title. */
  function CompletionTarget(rs: seq<Reminder>, id: Option<string>, title: Option<string>): (r: Option<nat>)
    ensures r.Some? ==> r.value < |rs|
    ensures Truthy(id) && (exists i :: 0 <= i < |rs| && rs[i].id == id.value) ==>
      r.Some? && rs[r.value].id == id.value && forall j :: 0 <= j < r.value ==> rs[j].id != id.value
    ensures r.Some? && !(Truthy(id) && rs[r.value].id == id.value) ==>
      Truthy(title) && Lower(rs[r.value].title) == Trim(Lower(title.value)) && rs[r.value].status != "completed"
    ensures r.None? <==>
      (!Truthy(id) || forall i :: 0 <= i < |rs| ==> rs[i].id != id.value)
      && (!Truthy(title) || forall i :: 0 <= i < |rs| ==>
            !(Lower(rs[i].title) == Trim(Lower(title.value)) && rs[i].status != "completed"))
  {
    var byId := if Truthy(id) then FindIndex(rs, HasId(id.value)) else None;
    if byId.Some? then byId
    else if Truthy(title) then FindIndex(rs, OpenTitled(Trim(Lower(title.value))))
    else None
  }

  function ForReminder(r: Reminder): ScheduleItem -> bool { (s: ScheduleItem) => s.task == r.title || s.id == Some(r.id) }

  // ------------------------------------------------------------ family members

  function HasEmail(email: string): Member -> bool { (m: Member) => m.email == email }

  /** The family after `/api/family/primary`: every flag cleared, then the first
      member with the given email (if any) flagged. */
  function WithPrimary(fam: seq<Member>, email: Option<string>): (r: seq<Member>)
    ensures |r| == |fam|
    ensures forall i :: 0 <= i < |fam| ==> r[i] == fam[i].(primary := r[i].primary)
    ensures forall i :: 0 <= i < |fam| ==>
      (r[i].primary <==> email.Some? && fam[i].email == email.value && forall j :: 0 <= j < i ==> fam[j].email != email.value)
  {
    var cleared := seq(|fam|, i requires 0 <= i < |fam| => fam[i].(primary := false));
    var found := if email.Some? then FindIndex(cleared, HasEmail(email.value)) else None;
    if found.Some? then cleared[found.value := cleared[found.value].(primary := true)] else cleared
  }

  /** Number of members flagged primary. */
  function PrimaryCount(fam: seq<Member>): (n: nat)
    ensures n <= |fam|
  {
    if |fam| == 0 then 0 else (if fam[0].primary then 1 else 0) + PrimaryCount(fam[1..])
  }

  lemma {:induction false} NoPrimary(fam: seq<Member>)
    requires forall i :: 0 <= i < |fam| ==> !fam[i].primary
    ensures PrimaryCount(fam) == 0
  {
    if |fam| > 0 {
      assert !fam[0].primary;
      NoPrimary(fam[1..]);
    }
  }

  lemma {:induction false} OnePrimary(fam: seq<Member>, k: nat)
    requires k < |fam| && forall i :: 0 <= i < |fam| ==> (fam[i].primary <==> i == k)
    ensures PrimaryCount(fam) == 1
  {
    if k == 0 {
      NoPrimary(fam[1..]);
    } else {
      assert !fam[0].primary;
      OnePrimary(fam[1..], k - 1);
    }
  }

  /** After `/api/family/primary` exactly one member is primary when some member has
      the given email, and none otherwise. */
  lemma AtMostOnePrimary(fam: seq<Member>, email: Option<string>)
    ensures PrimaryCount(WithPrimary(fam, email)) ==
      (if email.Some? && exists i :: 0 <= i < |fam| && fam[i].email == email.value then 1 else 0)
  {
    var r := WithPrimary(fam, email);
    if email.Some? && exists i :: 0 <= i < |fam| && fam[i].email == email.value {
      var k := FindIndex(fam, HasEmail(email.value));
      assert k.Some?;
      forall i | 0 <= i < |fam| ensures r[i].primary <==> i == k.value {
        assert HasEmail(email.value)(fam[i]) <==> fam[i].email == email.value;
      }
      OnePrimary(r, k.value);
    } else {
      NoPrimary(r);
    }
  }

  /** Labelling a face as primary adds a primary member without clearing the others,
      so a family that had one primary member then has two. */
  lemma LabelledPrimaryAdds(m: Member, fam: seq<Member>)
    requires m.primary && PrimaryCount(fam) == 1
    ensures PrimaryCount([m] + fam) == 2
  {
    assert ([m] + fam)[1..] == fam;
  }

  function HasFaceId(id: Option<string>): UnknownFace -> bool { (f: UnknownFace) => Some(f.id) == id }

  // ---------------------------------------------------------- face recognition

  const Modulus: nat := 0x1_0000_0000

  /** `hashStr`: h := (h * 31 + code) >>> 0 over the characters, i.e. modulo 2^32.
      A character's code is its scalar value, which is `charCodeAt` for characters
      of the basic multilingual plane. */
  function Hash(s: string): (h: nat)
    ensures h < Modulus
  {
    if |s| == 0 then 0 else (Hash(s[..|s| - 1]) * 31 + s[|s| - 1] as int) % Modulus
  }

  /** The polynomial hash Σ code(s[i]) · 31^(|s|-1-i), without any reduction. */
  function Polynomial(s: string): nat {
    if |s| == 0 then 0 else Polynomial(s[..|s| - 1]) * 31 + s[|s| - 1] as int
  }

  lemma ModStep(a: nat, c: nat)
    ensures ((a % Modulus) * 31 + c) % Modulus == (a * 31 + c) % Modulus
  {
    var q := a / Modulus;
    assert a == q * Modulus + a % Modulus;
    assert a * 31 + c == (a % Modulus) * 31 + c + (q * 31) * Modulus;
  }

  /** Reducing after every step is the same as reducing the polynomial once. */
  lemma {:induction false} HashIsPolynomial(s: string)
    ensures Hash(s) == Polynomial(s) % Modulus
  {
    if |s| > 0 {
      HashIsPolynomial(s[..|s| - 1]);
      ModStep(Polynomial(s[..|s| - 1]), s[|s| - 1] as int);
    }
  }

  predicate IsDataUrl(imageData: Option<string>) { imageData.Some? && PrefixAt(imageData.value, 0, "data:") }

  predicate IsFamilyPath(imageData: Option<string>) { imageData.Some? && Contains(imageData.value, "/images/family/") }

  /** A member is recognised from an image path containing one of its training
      images or its photo URL (the empty string when it has none). */
  function PathMatches(path: string): Member -> bool {
    (m: Member) => (exists k :: 0 <= k < |m.trainingImages| && Contains(path, m.trainingImages[k]))
         || Contains(path, m.photoUrl.GetOr(""))
  }

  /** `imageData.slice(0, 500)`. */
  function Head500(s: string): string { if |s| <= 500 then s else s[..500] }

  /** Whether `recognizeFace` falls through to the rotating pick. */
  predicate Rotates(fam: seq<Member>, imageData: Option<string>) {
    |fam| > 0 && !IsDataUrl(imageData) && !(IsFamilyPath(imageData) && FindIndex(fam, PathMatches(imageData.value)).Some?)
  }

  /** The index `recognizeFace` picks: none for an empty family; for a data URL the
      hash of its first 500 characters modulo |family|+1, the extra slot meaning an
      unknown person; for a family image path the first member it names; otherwise
      the rotating index. */
  function FaceIndex(fam: seq<Member>, imageData: Option<string>, rotation: nat): (r: Option<nat>)
    ensures r.Some? ==> r.value < |fam|
    ensures r.None? <==> |fam| == 0 || (IsDataUrl(imageData) && Hash(Head500(imageData.value)) % (|fam| + 1) == |fam|)
    ensures IsDataUrl(imageData) && r.Some? ==> r.value == Hash(Head500(imageData.value)) % (|fam| + 1)
    ensures Rotates(fam, imageData) ==> r == Some(rotation % |fam|)
    ensures |fam| > 0 && !IsDataUrl(imageData) && IsFamilyPath(imageData) && !Rotates(fam, imageData) ==>
      r.Some? && PathMatches(imageData.value)(fam[r.value])
      && forall j :: 0 <= j < r.value ==> !PathMatches(imageData.value)(fam[j])
  {
    if |fam| == 0 then None
    else if IsDataUrl(imageData) then
      var m := Hash(Head500(imageData.value)) % (|fam| + 1);
      if m == |fam| then None else Some(m)
    else if IsFamilyPath(imageData) && FindIndex(fam, PathMatches(imageData.value)).Some? then
      FindIndex(fam, PathMatches(imageData.value))
    else Some(rotation % |fam|)
  }

  /** A member without a photo URL matches every family image path, because the
      path always contains the empty string; so no member after it is ever picked
      by path. */
  lemma MissingPhotoMatchesEveryPath(fam: seq<Member>, path: string, i: nat)
    requires i < |fam| && fam[i].photoUrl.None?
    requires !PrefixAt(path, 0, "data:") && Contains(path, "/images/family/")
    ensures FaceIndex(fam, Some(path), 0).Some? && FaceIndex(fam, Some(path), 0).value <= i
  {
    assert PrefixAt(path, 0, "");
    assert PathMatches(path)(fam[i]);
    assert !Rotates(fam, Some(path));
  }

  /** `(a.x ?? 0)`, the sort key of a face. */
  function Key(f: Face): real { f.x.GetOr(0.0) }

  predicate SortedByX(s: seq<Face>) { forall i, j :: 0 <= i < j < |s| ==> Key(s[i]) <= Key(s[j]) }

  /** Inserts `f` after every element whose key is not larger (so ties keep their order). */
  function Insert(t: seq<Face>, f: Face): (r: seq<Face>)
    requires SortedByX(t)
    decreases |t|, 0
    ensures SortedByX(r)
    ensures multiset(r) == multiset(t) + multiset{f}
    ensures |r| == |t| + 1
  {
    if |t| == 0 then [f]
    else if Key(t[|t| - 1]) <= Key(f) then t + [f]
    else
      var r := Insert(t[..|t| - 1], f) + [t[|t| - 1]];
      assert t == t[..|t| - 1] + [t[|t| - 1]];
      InsertBelow(t[..|t| - 1], f, Key(t[|t| - 1]));
      r
  }

  lemma InsertBelow(t: seq<Face>, f: Face, bound: real)
    requires SortedByX(t)
    requires Key(f) <= bound && forall i :: 0 <= i < |t| ==> Key(t[i]) <= bound
    decreases |t|, 1
    ensures forall i :: 0 <= i < |Insert(t, f)| ==> Key(Insert(t, f)[i]) <= bound
  {
    var r := Insert(t, f);
    forall i | 0 <= i < |r| ensures Key(r[i]) <= bound {
      assert r[i] in multiset(r);
      assert r[i] in multiset(t) || r[i] == f;
      if r[i] != f {
        var j :| 0 <= j < |t| && t[j] == r[i];
      }
    }
  }

  /** `[...faces].sort((a, b) => (a.x ?? 0) - (b.x ?? 0))`: a stable insertion sort. */
  function SortByX(faces: seq<Face>): (r: seq<Face>)
    ensures SortedByX(r)
    ensures multiset(r) == multiset(faces)
    ensures |r| == |faces|
  {
    if |faces| == 0 then []
    else
      assert faces == faces[..|faces| - 1] + [faces[|faces| - 1]];
      Insert(SortByX(faces[..|faces| - 1]), faces[|faces| - 1])
  }

  /** The faces of `s` whose key is `k`, in the order of `s`. */
  function WithKey(s: seq<Face>, k: real): seq<Face> {
    if |s| == 0 then [] else WithKey(s[..|s| - 1], k) + (if Key(s[|s| - 1]) == k then [s[|s| - 1]] else [])
  }

  lemma {:induction false} WithKeyConcat(a: seq<Face>, b: seq<Face>, k: real)
    ensures WithKey(a + b, k) == WithKey(a, k) + WithKey(b, k)
    decreases |b|
  {
    if |b| > 0 {
      assert (a + b)[..|a + b| - 1] == a + b[..|b| - 1];
      WithKeyConcat(a, b[..|b| - 1], k);
    } else {
      assert a + b == a;
    }
  }

  /** Inserting `f` puts it after every face of `t` with the same key. */
  lemma {:induction false} InsertKeepsTies(t: seq<Face>, f: Face, k: real)
    requires SortedByX(t)
    ensures WithKey(Insert(t, f), k) == WithKey(t, k) + WithKey([f], k)
    decreases |t|
  {
    if |t| == 0 {
      assert Insert(t, f) == [f];
      assert t + [f] == [f];
      WithKeyConcat(t, [f], k);
    } else if Key(t[|t| - 1]) <= Key(f) {
      assert Insert(t, f) == t + [f];
      WithKeyConcat(t, [f], k);
    } else {
      var front, last := t[..|t| - 1], t[|t| - 1];
      assert Insert(t, f) == Insert(front, f) + [last];
      InsertKeepsTies(front, f, k);
      TieStep(Insert(front, f), front, f, last, k);
      assert t == front + [last];
    }
  }

  /** One step of `InsertKeepsTies`: appending a face with a larger key than `f`
      keeps `f`'s place among its ties. */
  lemma TieStep(x: seq<Face>, front: seq<Face>, f: Face, last: Face, k: real)
    requires WithKey(x, k) == WithKey(front, k) + WithKey([f], k)
    requires Key(f) < Key(last)
    ensures WithKey(x + [last], k) == WithKey(front + [last], k) + WithKey([f], k)
  {
    WithKeyConcat(x, [last], k);
    WithKeyConcat(front, [last], k);
    SingleKey(last, k);
    SingleKey(f, k);
  }

  lemma SingleKey(f: Face, k: real)
    ensures WithKey([f], k) == if Key(f) == k then [f] else []
  {
    assert [f][..0] == [];
  }

  /** The sort is stable: the faces with any one key come out in their input order. */
  lemma {:induction false} SortByXStable(faces: seq<Face>, k: real)
    ensures WithKey(SortByX(faces), k) == WithKey(faces, k)
  {
    if |faces| > 0 {
      var front, last := faces[..|faces| - 1], faces[|faces| - 1];
      SortByXStable(front, k);
      SortByXLast(faces);
      InsertKeepsTies(SortByX(front), last, k);
      SingleKey(last, k);
    }
  }

  lemma SortByXLast(faces: seq<Face>)
    requires |faces| > 0
    ensures SortByX(faces) == Insert(SortByX(faces[..|faces| - 1]), faces[|faces| - 1])
  {
  }

  /** What `recognizeFace` answers for a crop at rotation `rot`. */
  function Picked(fam: seq<Member>, imageData: Option<string>, rot: nat): (m: Option<Member>)
    ensures m.Some? ==> m.value in fam
  {
    var k := FaceIndex(fam, imageData, rot);
    if k.Some? then Some(fam[k.value]) else None
  }

  /** The rotation after recognising the faces `fs` in turn from `rot`: each rotating
      pick advances it by one. */
  function RotationAfter(fs: seq<Face>, fam: seq<Member>, rot: nat): (n: nat)
    ensures rot <= n <= rot + |fs|
  {
    if |fs| == 0 then rot
    else
      var before := RotationAfter(fs[..|fs| - 1], fam, rot);
      if Rotates(fam, fs[|fs| - 1].imageData) then before + 1 else before
  }

  /** Each face of `fs` paired with what `recognizeFace` says about its crop, the faces
      taken in turn from rotation `rot`. */
  function Recognized(fs: seq<Face>, fam: seq<Member>, rot: nat): (r: seq<(Face, Option<Member>)>)
    ensures |r| == |fs|
  {
    if |fs| == 0 then []
    else
      var front := fs[..|fs| - 1];
      Recognized(front, fam, rot) + [(fs[|fs| - 1], Picked(fam, fs[|fs| - 1].imageData, RotationAfter(front, fam, rot)))]
  }

  /** Face `i` is paired with what `recognizeFace` picks for it at the rotation the
      faces before it have reached. */
  lemma {:induction false} RecognizedAt(fs: seq<Face>, fam: seq<Member>, rot: nat)
    ensures forall i :: 0 <= i < |fs| ==>
      Recognized(fs, fam, rot)[i] == (fs[i], Picked(fam, fs[i].imageData, RotationAfter(fs[..i], fam, rot)))
  {
    if |fs| > 0 {
      var front := fs[..|fs| - 1];
      RecognizedAt(front, fam, rot);
      var r := Recognized(fs, fam, rot);
      assert r == Recognized(front, fam, rot) + [(fs[|fs| - 1], Picked(fam, fs[|fs| - 1].imageData, RotationAfter(front, fam, rot)))];
      forall i | 0 <= i < |fs|
        ensures r[i] == (fs[i], Picked(fam, fs[i].imageData, RotationAfter(fs[..i], fam, rot)))
      {
        if i < |front| {
          assert front[..i] == fs[..i];
        }
      }
    }
  }

  /** Recognising one more face of `fs` appends its pick and moves the rotation on
      when that pick rotated. */
  lemma RecognizedStep(fs: seq<Face>, i: nat, fam: seq<Member>, rot: nat)
    requires i < |fs|
    ensures Recognized(fs[..i + 1], fam, rot) ==
      Recognized(fs[..i], fam, rot) + [(fs[i], Picked(fam, fs[i].imageData, RotationAfter(fs[..i], fam, rot)))]
    ensures RotationAfter(fs[..i + 1], fam, rot) ==
      RotationAfter(fs[..i], fam, rot) + (if Rotates(fam, fs[i].imageData) then 1 else 0)
  {
    assert fs[..i + 1][..i] == fs[..i];
  }

  /** When every crop falls through to the rotation, the faces are named by consecutive
      members of the family, starting at `rot`, and the rotation moves on by one per face. */
  lemma {:induction false} AllRotating(fs: seq<Face>, fam: seq<Member>, rot: nat)
    requires forall i :: 0 <= i < |fs| ==> Rotates(fam, fs[i].imageData)
    ensures RotationAfter(fs, fam, rot) == rot + |fs|
    ensures forall i :: 0 <= i < |fs| ==> Recognized(fs, fam, rot)[i].1 == Some(fam[(rot + i) % |fam|])
  {
    RecognizedAt(fs, fam, rot);
    if |fs| > 0 {
      AllRotating(fs[..|fs| - 1], fam, rot);
      forall i | 0 <= i < |fs| ensures RotationAfter(fs[..i], fam, rot) == rot + i {
        assert fs[..|fs| - 1][..i] == fs[..i];
        AllRotating(fs[..i], fam, rot);
      }
    }
  }

  // ------------------------------------------------------------------- the store

  class Db {
    var reminders: seq<Reminder>
    var scheduleToday: seq<ScheduleItem>
    var activity: seq<Activity>
    var alerts: seq<Alert>
    var emailOutbox: seq<Email>
    /** The reminder waiting for a frequency follow-up; absent in the seed. */
    var pendingReminder: Option<string>
    var family: seq<Member>
    var unknownFaces: seq<UnknownFace>
    var caregiverEmail: string
    var primaryFamilyEmail: string
    /** Number of `nextId` calls so far. */
    var serial: nat
    /** The module-level `_recogIndex` of `recognizeFace`. */
    var recogIndex: nat

    function Snapshot(): Store reads this {
      Store(reminders, scheduleToday, activity, alerts, emailOutbox, pendingReminder,
            family, unknownFaces, caregiverEmail, primaryFamilyEmail, serial, recogIndex)
    }

    constructor (reminders: seq<Reminder>, scheduleToday: seq<ScheduleItem>, activity: seq<Activity>,
                 alerts: seq<Alert>, family: seq<Member>, caregiverEmail: string, primaryFamilyEmail: string)
      ensures Snapshot() == Store(reminders, scheduleToday, activity, alerts, [], None, family, [],
                                  caregiverEmail, primaryFamilyEmail, 0, 0)
    {
      this.reminders := reminders;
      this.scheduleToday := scheduleToday;
      this.activity := activity;
      this.alerts := alerts;
      this.emailOutbox := [];
      this.pendingReminder := None;
      this.family := family;
      this.unknownFaces := [];
      this.caregiverEmail := caregiverEmail;
      this.primaryFamilyEmail := primaryFamilyEmail;
      this.serial := 0;
      this.recogIndex := 0;
    }

    /** `nextId(prefix)`. */
    method NextId(prefix: string) returns (id: string)
      modifies this
      ensures id == FreshId(prefix, old(serial))
      ensures Snapshot() == old(Snapshot()).(serial := old(serial) + 1)
    {
      id := FreshId(prefix, serial);
      serial := serial + 1;
    }

    /** `addActivityEvent`: a new event in front of the feed; the colours default
        only when they are not given at all. */
    method AddActivityEvent(title: string, description: string, kind: string,
                            bgColor: Option<string>, borderColor: Option<string>)
      modifies this
      ensures Snapshot() == old(Snapshot()).(
        activity := [Activity(FreshId("e", old(serial)), title, description, kind,
                              bgColor.GetOr("#EFF6FF"), borderColor.GetOr("#3B82F6"))] + old(activity),
        serial := old(serial) + 1)
    {
      var id := NextId("e");
      activity := [Activity(id, title, description, kind, bgColor.GetOr("#EFF6FF"), borderColor.GetOr("#3B82F6"))] + activity;
    }

    /** What `createReminder` and the `/api/reminders` POST share once the defaults
        are applied: the reminder goes in front of `reminders`, its mirror in front
        of `scheduleToday` and a "Reminder created" event in front of the feed. */
    method AddReminder(title: string, description: string, time: string, frequency: string, nextDue: string)
      returns (r: Reminder)
      modifies this
      ensures r == Reminder(FreshId("r", old(serial)), title, description, time, frequency, "active", nextDue, None)
      ensures Snapshot() == old(Snapshot()).(
        reminders := [r] + old(reminders),
        scheduleToday := [ScheduleItem(Some(r.id), MirrorTime(time), title, frequency, "pending")] + old(scheduleToday),
        activity := [Activity(FreshId("e", old(serial) + 1), "Reminder created: " + title,
                              "Scheduled at " + time + " (" + frequency + ")", "Reminder", "#FEF3C7", "#F59E0B")]
                    + old(activity),
        serial := old(serial) + 2)
    {
      var id := NextId("r");
      r := Reminder(id, title, description, time, frequency, "active", nextDue, None);
      reminders := [r] + reminders;
      scheduleToday := [ScheduleItem(Some(id), MirrorTime(time), title, frequency, "pending")] + scheduleToday;
      var eid := NextId("e");
      activity := [Activity(eid, "Reminder created: " + title, "Scheduled at " + time + " (" + frequency + ")",
                            "Reminder", "#FEF3C7", "#F59E0B")] + activity;
    }

    /** `createReminder(input)`: description defaults to "", frequency to
        "One-time" and the next due date to "Today, <time>". */
    method CreateReminder(title: string, description: Option<string>, time: string,
                          frequency: Option<string>, nextDue: Option<string>) returns (r: Reminder)
      modifies this
      ensures r == Reminder(FreshId("r", old(serial)), title, OrElse(description, ""), time,
                            OrElse(frequency, "One-time"), "active", OrElse(nextDue, "Today, " + time), None)
      ensures Snapshot() == old(Snapshot()).(
        reminders := [r] + old(reminders),
        scheduleToday := [ScheduleItem(Some(r.id), MirrorTime(time), title, r.frequency, "pending")] + old(scheduleToday),
        activity := [Activity(FreshId("e", old(serial) + 1), "Reminder created: " + title,
                              "Scheduled at " + time + " (" + r.frequency + ")", "Reminder", "#FEF3C7", "#F59E0B")]
                    + old(activity),
        serial := old(serial) + 2)
    {
      r := AddReminder(title, OrElse(description, ""), time, OrElse(frequency, "One-time"),
                       OrElse(nextDue, "Today, " + time));
    }

    /** The `/api/reminders` POST: time defaults to "09:00", frequency to
        "One-time", description to "" and the next due date to "Today". */
    method PostReminder(title: string, description: Option<string>, time: Option<string>,
                        frequency: Option<string>, nextDue: Option<string>) returns (r: Reminder)
      modifies this
      ensures r == Reminder(FreshId("r", old(serial)), title, OrElse(description, ""), OrElse(time, "09:00"),
                            OrElse(frequency, "One-time"), "active", OrElse(nextDue, "Today"), None)
      ensures Snapshot() == old(Snapshot()).(
        reminders := [r] + old(reminders),
        scheduleToday := [ScheduleItem(Some(r.id), MirrorTime(r.time), title, r.frequency, "pending")] + old(scheduleToday),
        activity := [Activity(FreshId("e", old(serial) + 1), "Reminder created: " + title,
                              "Scheduled at " + r.time + " (" + r.frequency + ")", "Reminder", "#FEF3C7", "#F59E0B")]
                    + old(activity),
        serial := old(serial) + 2)
    {
      r := AddReminder(title, OrElse(description, ""), OrElse(time, "09:00"), OrElse(frequency, "One-time"),
                       OrElse(nextDue, "Today"));
    }

    /** `addAlert`: the alert (its badge is its severity) in front of `alerts`, and an
        "Emergency" event with the same title and description in front of the feed. */
    method AddAlert(title: string, severity: string, description: string, status: string) returns (a: Alert)
      modifies this
      ensures a == Alert(FreshId("a", old(serial)), title, severity, description, status, severity)
      ensures Snapshot() == old(Snapshot()).(
        alerts := [a] + old(alerts),
        activity := [Activity(FreshId("e", old(serial) + 1), title, description, "Emergency", "#FEF3C7", "#F59E0B")]
                    + old(activity),
        serial := old(serial) + 2)
    {
      var id := NextId("a");
      a := Alert(id, title, severity, description, status, severity);
      alerts := [a] + alerts;
      var eid := NextId("e");
      activity := [Activity(eid, title, description, "Emergency", "#FEF3C7", "#F59E0B")] + activity;
    }

    /** The `/api/email/send` POST: the email in front of the outbox (subject
        defaults to "(no subject)", body to "") and a "Notification" event. */
    method SendEmail(to: string, subject: Option<string>, body: Option<string>) returns (e: Email)
      modifies this
      ensures e == Email(FreshId("m", old(serial)), to, OrElse(subject, "(no subject)"), OrElse(body, ""))
      ensures Snapshot() == old(Snapshot()).(
        emailOutbox := [e] + old(emailOutbox),
        activity := [Activity(FreshId("e", old(serial) + 1), "Email sent to " + to, e.subject, "Notification",
                              "#F0F9FF", "#38BDF8")] + old(activity),
        serial := old(serial) + 2)
    {
      var id := NextId("m");
      e := Email(id, to, OrElse(subject, "(no subject)"), OrElse(body, ""));
      emailOutbox := [e] + emailOutbox;
      AddActivityEvent("Email sent to " + to, e.subject, "Notification", Some("#F0F9FF"), Some("#38BDF8"));
    }

    /** `regenerateScheduleFromReminders`, which `handleRequest` runs before every
        request: `scheduleToday` is rebuilt from `reminders` (the final sort by
        parsed time is not modelled). */
    method Regenerate()
      modifies this
      ensures Snapshot() == old(Snapshot()).(scheduleToday := ScheduleOf(old(reminders)))
    {
      var items: seq<ScheduleItem> := [];
      for i := 0 to |reminders|
        invariant |items| == i
        invariant forall k :: 0 <= k < i ==> items[k] == ScheduleEntry(reminders[k])
      {
        var r := reminders[i];
        var time := if HasMeridiem(r.time) then r.time else TimeNormalizer.NormalizeTime(r.time).GetOr(r.time);
        items := items + [ScheduleItem(Some(r.id), Some(time), r.title, OrElse(Some(r.frequency), "One-time"),
                                       ScheduleStatus(r.status))];
      }
      assert items == ScheduleOf(reminders);
      scheduleToday := items;
    }

    /** The state updates of a completion: reminder `i` is marked completed, and so
        is the first schedule entry with its title or id. */
    method MarkTargetCompleted(i: nat, now: string) returns (t: Reminder)
      requires i < |reminders|
      modifies this
      ensures t == old(reminders)[i].(status := "completed", completedAt := Some(now))
      ensures Snapshot() == old(Snapshot()).(
        reminders := old(reminders)[i := t],
        scheduleToday := MarkCompleted(old(scheduleToday), FindIndex(old(scheduleToday), ForReminder(t))))
    {
      t := reminders[i].(status := "completed", completedAt := Some(now));
      reminders := reminders[i := t];
      var sIdx := FindIndex(scheduleToday, ForReminder(t));
      if sIdx.Some? {
        scheduleToday := scheduleToday[sIdx.value := scheduleToday[sIdx.value].(status := "completed")];
      }
    }

    /** The `/api/reminders/complete` POST. With no target (the 404 answer) nothing
        changes. Otherwise the target is marked completed with the given clock
        reading, so is the first schedule entry with its title or id, and a
        "Reminder completed" event is added (the branch calls `nextId` twice for
        it, so the event gets the second id). */
    method CompleteReminder(id: Option<string>, title: Option<string>, now: string) returns (target: Option<Reminder>)
      modifies this
      ensures target.None? <==> CompletionTarget(old(reminders), id, title).None?
      ensures target.None? ==> Snapshot() == old(Snapshot())
      ensures target.Some? ==>
        var i := CompletionTarget(old(reminders), id, title).value;
        target.value == old(reminders)[i].(status := "completed", completedAt := Some(now))
        && Snapshot() == old(Snapshot()).(
             reminders := old(reminders)[i := target.value],
             scheduleToday := MarkCompleted(old(scheduleToday), FindIndex(old(scheduleToday), ForReminder(target.value))),
             activity := [Activity(FreshId("e", old(serial) + 1), "Reminder completed: " + target.value.title, now,
                                   "Reminder", "#ECFDF5", "#10B981")] + old(activity),
             serial := old(serial) + 2)
    {
      var idx := CompletionTarget(reminders, id, title);
      if idx.None? {
        return None;
      }
      var t := MarkTargetCompleted(idx.value, now);
      ghost var marked := Snapshot();
      var unused := NextId("e");
      AddActivityEvent("Reminder completed: " + t.title, now, "Reminder", Some("#ECFDF5"), Some("#10B981"));
      assert Snapshot() == marked.(
        activity := [Activity(FreshId("e", old(serial) + 1), "Reminder completed: " + t.title, now,
                              "Reminder", "#ECFDF5", "#10B981")] + old(activity),
        serial := old(serial) + 2);
      target := Some(t);
    }

    /** The `/api/family/primary` POST: every member's flag is cleared, then the
        first member with the given email is flagged; a given email also becomes
        the primary family address. */
    method SetPrimary(email: Option<string>)
      modifies this
      ensures Snapshot() == old(Snapshot()).(
        family := WithPrimary(old(family), email),
        primaryFamilyEmail := if Truthy(email) then email.value else old(primaryFamilyEmail))
      ensures PrimaryCount(family) <= 1
    {
      var i := 0;
      while i < |family|
        invariant 0 <= i <= |family| == |old(family)|
        invariant forall k :: 0 <= k < i ==> family[k] == old(family)[k].(primary := false)
        invariant forall k :: i <= k < |family| ==> family[k] == old(family)[k]
        invariant Snapshot() == old(Snapshot()).(family := family)
      {
        family := family[i := family[i].(primary := false)];
        i := i + 1;
      }
      assert family == seq(|old(family)|, k requires 0 <= k < |old(family)| => old(family)[k].(primary := false));
      var found := if email.Some? then FindIndex(family, HasEmail(email.value)) else None;
      if found.Some? {
        family := family[found.value := family[found.value].(primary := true)];
      }
      if Truthy(email) {
        primaryFamilyEmail := email.value;
      }
      AtMostOnePrimary(old(family), email);
    }

    /** The first step of a labelling: the unknown face with the given id (if any) is
        removed and lends its image when none is given. */
    method TakeUnknownFace(id: Option<string>, imageData: Option<string>) returns (image: Option<string>)
      modifies this
      ensures var idx := FindIndex(old(unknownFaces), HasFaceId(id));
        image == (if idx.Some? then OrElseOpt(imageData, old(unknownFaces)[idx.value].imageData) else imageData)
        && Snapshot() == old(Snapshot()).(
             unknownFaces := if idx.Some? then old(unknownFaces)[..idx.value] + old(unknownFaces)[idx.value + 1..]
                             else old(unknownFaces))
    {
      var idx := FindIndex(unknownFaces, HasFaceId(id));
      image := imageData;
      if idx.Some? {
        var rec := unknownFaces[idx.value];
        unknownFaces := unknownFaces[..idx.value] + unknownFaces[idx.value + 1..];
        image := OrElseOpt(image, rec.imageData);
      }
    }

    /** The `/api/faces/label` POST: the unknown face with the given id (if any) is
        removed and lends its image when none is given; the new member goes in front
        of the family, flagged primary as asked without clearing the other flags;
        a primary member's email becomes the primary family address; and a "Face
        Recognition" event is added (its id is the third one used). */
    method LabelFace(id: Option<string>, name: string, relation: Option<string>, email: Option<string>,
                     photoUrl: Option<string>, imageData: Option<string>, primary: bool) returns (m: Member)
      modifies this
      ensures
        var idx := FindIndex(old(unknownFaces), HasFaceId(id));
        m == Member(FreshId("f", old(serial)), name, OrElse(relation, "Friend"), OrElse(email, ""),
                    OrElseOpt(photoUrl, None), [],
                    if idx.Some? then OrElseOpt(imageData, old(unknownFaces)[idx.value].imageData) else imageData,
                    primary)
        && Snapshot() == old(Snapshot()).(
             unknownFaces := if idx.Some? then old(unknownFaces)[..idx.value] + old(unknownFaces)[idx.value + 1..]
                             else old(unknownFaces),
             family := [m] + old(family),
             primaryFamilyEmail := if primary && m.email != "" then m.email else old(primaryFamilyEmail),
             activity := [Activity(FreshId("e", old(serial) + 2), "Labeled new person: " + name,
                                   "Saved as " + m.relation, "Face Recognition", "#ECFDF5", "#10B981")] + old(activity),
             serial := old(serial) + 3)
      ensures primary && PrimaryCount(old(family)) == 1 ==> PrimaryCount(family) == 2
    {
      var image := TakeUnknownFace(id, imageData);
      ghost var faces := unknownFaces;
      var fid := NextId("f");
      m := Member(fid, name, OrElse(relation, "Friend"), OrElse(email, ""), OrElseOpt(photoUrl, None), [], image, primary);
      family := [m] + family;
      if m.primary && m.email != "" {
        primaryFamilyEmail := m.email;
      }
      ghost var added := old(Snapshot()).(
        unknownFaces := faces, family := [m] + old(family),
        primaryFamilyEmail := if primary && m.email != "" then m.email else old(primaryFamilyEmail),
        serial := old(serial) + 1);
      assert Snapshot() == added;
      var unused := NextId("e");
      AddActivityEvent("Labeled new person: " + name, "Saved as " + m.relation, "Face Recognition",
                       Some("#ECFDF5"), Some("#10B981"));
      assert Snapshot() == added.(
        activity := [Activity(FreshId("e", old(serial) + 2), "Labeled new person: " + name,
                              "Saved as " + m.relation, "Face Recognition", "#ECFDF5", "#10B981")] + old(activity),
        serial := old(serial) + 3);
      if primary && PrimaryCount(old(family)) == 1 {
        LabelledPrimaryAdds(m, old(family));
      }
    }

    /** `hashStr`. */
    static method HashStr(s: string) returns (h: nat)
      ensures h == Hash(s)
    {
      h := 0;
      for i := 0 to |s|
        invariant h == Hash(s[..i])
      {
        assert s[..i + 1][..i] == s[..i];
        h := (h * 31 + s[i] as int) % Modulus;
      }
      assert s[..|s|] == s;
    }

    /** `recognizeFace`: the member `FaceIndex` picks; only the rotating pick
        advances the rotation. */
    method RecognizeFace(imageData: Option<string>) returns (m: Option<Member>)
      modifies this
      ensures var k := FaceIndex(old(family), imageData, old(recogIndex));
        m == if k.Some? then Some(old(family)[k.value]) else None
      ensures Snapshot() == old(Snapshot()).(
        recogIndex := if Rotates(old(family), imageData) then old(recogIndex) + 1 else old(recogIndex))
    {
      if |family| == 0 {
        return None;
      }
      if IsDataUrl(imageData) {
        var h := HashStr(Head500(imageData.value));
        var k := h % (|family| + 1);
        return if k == |family| then None else Some(family[k]);
      }
      if IsFamilyPath(imageData) {
        var found := FindIndex(family, PathMatches(imageData.value));
        if found.Some? {
          return Some(family[found.value]);
        }
      }
      m := Some(family[recogIndex % |family|]);
      recogIndex := recogIndex + 1;
    }

    /** `recognizeFaces`: the faces ordered by `x`, each paired with what
        `recognizeFace` says about its crop, in that order. */
    method RecognizeFaces(faces: seq<Face>) returns (r: seq<(Face, Option<Member>)>)
      modifies this
      ensures r == Recognized(SortByX(faces), old(family), old(recogIndex))
      ensures Snapshot() == old(Snapshot()).(recogIndex := RotationAfter(SortByX(faces), old(family), old(recogIndex)))
    {
      r := [];
      if |faces| == 0 {
        return;
      }
      var ordered := SortByX(faces);
      for i := 0 to |ordered|
        invariant r == Recognized(ordered[..i], old(family), old(recogIndex))
        invariant Snapshot() == old(Snapshot()).(recogIndex := RotationAfter(ordered[..i], old(family), old(recogIndex)))
      {
        RecognizedStep(ordered, i, family, old(recogIndex));
        var member := RecognizeFace(ordered[i].imageData);
        r := r + [(ordered[i], member)];
      }
      assert ordered[..|ordered|] == ordered;
    }
  }
}
