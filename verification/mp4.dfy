/**
 * The iTunes-style metadata reader of metadata/mp4/mp4.go.
 *
 * The go-mp4 library that finds moov/udta/meta/ilst and walks the boxes under it is not part of
 * this model. A `Container` states what that library reports for one file: the outcome of the
 * ilst lookup and, for each ilst box found, the boxes the walk visits below it, in order.
 */
module Mp4 {
  import opened Wrappers

  newtype byte = x: int | 0 <= x < 256

  type Bytes = seq<byte>

  /** A four-byte box type (an atom tag). */
  datatype BoxType = BoxType(b0: byte, b1: byte, b2: byte, b3: byte)

  const COVR := BoxType(0x63, 0x6F, 0x76, 0x72)  // "covr"
  const DESC := BoxType(0x64, 0x65, 0x73, 0x63)  // "desc"
  const GEN := BoxType(0xA9, 0x67, 0x65, 0x6E)   // "©gen"
  const TOO := BoxType(0xA9, 0x74, 0x6F, 0x6F)   // "©too"
  const STIK := BoxType(0x73, 0x74, 0x69, 0x6B)  // "stik"
  const SONM := BoxType(0x73, 0x6F, 0x6E, 0x6D)  // "sonm"
  const NAM := BoxType(0xA9, 0x6E, 0x61, 0x6D)   // "©nam"
  const TVNN := BoxType(0x74, 0x76, 0x6E, 0x6E)  // "tvnn", tv network
  const TVSH := BoxType(0x74, 0x76, 0x73, 0x68)  // "tvsh"
  const TVSN := BoxType(0x74, 0x76, 0x73, 0x6E)  // "tvsn"
  const TVES := BoxType(0x74, 0x76, 0x65, 0x73)  // "tves"
  const TVEN := BoxType(0x74, 0x76, 0x65, 0x6E)  // "tven", tv episode id
  const DAY := BoxType(0xA9, 0x64, 0x61, 0x79)   // "©day"
  const DISK := BoxType(0x64, 0x69, 0x73, 0x6B)  // "disk"
  const TRKN := BoxType(0x74, 0x72, 0x6B, 0x6E)  // "trkn"
  const HDVD := BoxType(0x68, 0x64, 0x76, 0x64)  // "hdvd"
  const CNID := BoxType(0x63, 0x6E, 0x49, 0x44)  // "cnID"
  const SFID := BoxType(0x73, 0x66, 0x49, 0x44)  // "sfID"
  const ATID := BoxType(0x61, 0x74, 0x49, 0x44)  // "atID"
  const PLID := BoxType(0x70, 0x6C, 0x49, 0x44)  // "plID"
  const AART := BoxType(0x61, 0x41, 0x52, 0x54)  // "aART"
  const ART := BoxType(0xA9, 0x41, 0x52, 0x54)   // "©ART"
  const ALB := BoxType(0xA9, 0x61, 0x6C, 0x62)   // "©alb"
  const FREE := BoxType(0x2D, 0x2D, 0x2D, 0x2D)  // "----"

  /** Tags that the dispatch names explicitly and then leaves alone. */
  const IGNORED_TAGS: set<BoxType> := {TVNN, TVEN, DISK, TRKN, CNID, SFID, ATID, PLID, AART, ART, ALB, FREE}

  /** The File field a data box is stored in, chosen by its parent's tag. */
  datatype Slot = Desc | Gen | Too | Stik | Sonm | Nam | Tvsh | Tvsn | Tves | Day | Hdvd | Ignored

  function SlotOf(parent: BoxType): Slot {
    if parent == DESC then Desc
    else if parent == GEN then Gen
    else if parent == TOO then Too
    else if parent == STIK then Stik
    else if parent == SONM then Sonm
    else if parent == NAM then Nam
    else if parent == TVSH then Tvsh
    else if parent == TVSN then Tvsn
    else if parent == TVES then Tves
    else if parent == DAY then Day
    else if parent == HDVD then Hdvd
    else Ignored
  }

  /**
   * What the walk has recorded: the cover-art box location and one payload per data field.
   * tvnn, sosn and tven are fields of the Go struct that no dispatch case ever stores.
   */
  datatype Atoms = Atoms(
    covr: Option<nat>,
    desc: Option<Bytes>, gen: Option<Bytes>, too: Option<Bytes>, stik: Option<Bytes>,
    sonm: Option<Bytes>, nam: Option<Bytes>, tvnn: Option<Bytes>, tvsh: Option<Bytes>,
    sosn: Option<Bytes>, tvsn: Option<Bytes>, tves: Option<Bytes>, tven: Option<Bytes>,
    day: Option<Bytes>, hdvd: Option<Bytes>)

  const NO_ATOMS := Atoms(None, None, None, None, None, None, None, None, None, None, None, None, None, None, None)

  /** The payload recorded for a slot (None for Ignored, which has no field). */
  function Get(a: Atoms, s: Slot): Option<Bytes> {
    match s
    case Desc => a.desc
    case Gen => a.gen
    case Too => a.too
    case Stik => a.stik
    case Sonm => a.sonm
    case Nam => a.nam
    case Tvsh => a.tvsh
    case Tvsn => a.tvsn
    case Tves => a.tves
    case Day => a.day
    case Hdvd => a.hdvd
    case Ignored => None
  }

  function Record(a: Atoms, s: Slot, data: Bytes): Atoms {
    match s
    case Desc => a.(desc := Some(data))
    case Gen => a.(gen := Some(data))
    case Too => a.(too := Some(data))
    case Stik => a.(stik := Some(data))
    case Sonm => a.(sonm := Some(data))
    case Nam => a.(nam := Some(data))
    case Tvsh => a.(tvsh := Some(data))
    case Tvsn => a.(tvsn := Some(data))
    case Tves => a.(tves := Some(data))
    case Day => a.(day := Some(data))
    case Hdvd => a.(hdvd := Some(data))
    case Ignored => a
  }

  /** What reading a visited box's payload gives. */
  datatype Payload = DataBox(data: Bytes) | OtherBox | ReadFailed(msg: string)

  /**
   * One box visited by the walk: whether go-mp4 supports its type, whether it lies under
   * ilst meta, the tag of its parent (None when the path has a single element), its location.
   */
  datatype Visit = Visit(supported: bool, underIlstMeta: bool, parent: Option<BoxType>, location: nat, payload: Payload)

  datatype IlstBox = IlstBox(location: nat, visits: seq<Visit>)

  /** What go-mp4 reports for one file: the ilst boxes ExtractBox finds, or its error. */
  datatype Container = Container(lookup: Result<seq<IlstBox>, string>)

  /** A box the callback looks at closely: supported, under ilst meta, with a parent. */
  predicate Relevant(v: Visit) {
    v.supported && v.underIlstMeta && v.parent.Some?
  }

  /** The boxes whose callback returns an error: reading a non-covr payload failed. */
  predicate Aborts(v: Visit) {
    Relevant(v) && v.parent.value != COVR && v.payload.ReadFailed?
  }

  /** One call of the walk callback; None when it returns an error, which ends the walk. */
  function Callback(a: Atoms, v: Visit): (r: Option<Atoms>)
    ensures r.None? <==> Aborts(v)
  {
    if !Relevant(v) then Some(a)
    else if v.parent.value == COVR then Some(a.(covr := Some(v.location)))
    else match v.payload
      case ReadFailed(_) => None
      case OtherBox => Some(a)
      case DataBox(d) => Some(Record(a, SlotOf(v.parent.value), d))
  }

  /**
   * The walk: the callback on each visited box in order, until one returns an error. Whatever
   * it changes comes from a visited box: a slot holds the payload of a box of that type, and
   * covr the location of a covr box.
   */
  function Walk(a: Atoms, visits: seq<Visit>): (r: Atoms)
    ensures forall s :: Get(r, s) != Get(a, s) ==>
      exists i :: 0 <= i < |visits| && Relevant(visits[i]) && SlotOf(visits[i].parent.value) == s
                  && visits[i].payload.DataBox? && Get(r, s) == Some(visits[i].payload.data)
    ensures r.covr != a.covr ==>
      exists i :: 0 <= i < |visits| && Relevant(visits[i]) && visits[i].parent.value == COVR
                  && r.covr == Some(visits[i].location)
    decreases |visits|
  {
    if visits == [] then a
    else match Callback(a, visits[0])
      case None => a
      case Some(next) => Walk(next, visits[1..])
  }

  datatype Error = LookupError(msg: string) | AtomMissing(atom: string) | UnknownStik(code: byte) | Crash(reason: string)

  /** A payload as a Go string: the same bytes, one char each. */
  function Latin(b: Bytes): (s: string)
    ensures |s| == |b|
    ensures forall i :: 0 <= i < |b| ==> s[i] as int == b[i] as int
  {
    seq(|b|, i requires 0 <= i < |b| => b[i] as int as char)
  }

  /**
   * binary.Read of a big-endian int32 from a payload: the first four bytes as a two's-complement
   * number; a shorter payload leaves the zero value, because the read error is ignored.
   */
  function Int32BE(b: Bytes): (n: int)
    ensures -0x8000_0000 <= n < 0x8000_0000
  {
    if |b| < 4 then 0
    else
      var u := ((b[0] as int * 256 + b[1] as int) * 256 + b[2] as int) * 256 + b[3] as int;
      if u >= 0x8000_0000 then u - 0x1_0000_0000 else u
  }

  /** The four big-endian bytes of a 32-bit signed integer. */
  function EncodeInt32BE(n: int): (b: Bytes)
    requires -0x8000_0000 <= n < 0x8000_0000
    ensures |b| == 4
  {
    var u := if n < 0 then n + 0x1_0000_0000 else n;
    [(u / 256 / 256 / 256) as byte, (u / 256 / 256 % 256) as byte, (u / 256 % 256) as byte, (u % 256) as byte]
  }

  /**
   * What the memoised survey leaves behind for one container: the lookup error, the panic of
   * indexing an empty lookup result, or the atoms recorded by walking the first ilst box.
   */
  datatype Extraction = LookupFailed(msg: string) | NoIlst | Surveyed(atoms: Atoms) {

    /** survey's result: nil once the walk has run, whatever happened during it. */
    function SurveyError(): Option<Error> {
      match this
      case LookupFailed(msg) => Some(LookupError(msg))
      case NoIlst => Some(Crash("index out of range [0] with length 0"))
      case Surveyed(_) => None
    }

    function Text(atom: Option<Bytes>, name: string): Result<string, Error> {
      if !Surveyed? then Failure(SurveyError().value)
      else if atom.None? then Failure(AtomMissing(name))
      else Success(Latin(atom.value))
    }

    function Title(): Result<string, Error> {
      Text(if Surveyed? then atoms.nam else None, "(c)nam")
    }

    function SortTitle(): Result<string, Error> {
      Text(if Surveyed? then atoms.sonm else None, "sonm")
    }

    function ReleaseDate(): Result<string, Error> {
      Text(if Surveyed? then atoms.day else None, "(c)day")
    }

    function Genre(): Result<string, Error> {
      Text(if Surveyed? then atoms.gen else None, "(c)gen")
    }

    function Description(): Result<string, Error> {
      Text(if Surveyed? then atoms.desc else None, "desc")
    }

    function TVShowName(): Result<string, Error> {
      Text(if Surveyed? then atoms.tvsh else None, "tvsh")
    }

    function TVSortShowName(): Result<string, Error> {
      Text(if Surveyed? then atoms.sosn else None, "sosn")
    }

    function MediaKind(): Result<string, Error> {
      if !Surveyed? then Failure(SurveyError().value)
      else if atoms.stik.None? then Failure(AtomMissing("stik"))
      else if |atoms.stik.value| == 0 then Failure(Crash("index out of range [0] with length 0"))
      else if atoms.stik.value[0] == 9 then Success("Movie")
      else if atoms.stik.value[0] == 10 then Success("TV Show")
      else Failure(UnknownStik(atoms.stik.value[0]))
    }

    function TVSeason(): Result<int, Error> {
      if !Surveyed? then Failure(SurveyError().value)
      else if atoms.tvsn.None? then Failure(AtomMissing("tvsn"))
      else Success(Int32BE(atoms.tvsn.value))
    }

    /** As written: absence is tested on tvsn, and a missing tves is then dereferenced. */
    function TVEpisode(): Result<int, Error> {
      if !Surveyed? then Failure(SurveyError().value)
      else if atoms.tvsn.None? then Failure(AtomMissing("tves"))
      else if atoms.tves.None? then Failure(Crash("nil pointer dereference"))
      else Success(Int32BE(atoms.tves.value))
    }
  }

  function Extract(c: Container): (r: Extraction)
    ensures r.Surveyed? <==> c.lookup.Success? && |c.lookup.value| > 0
    ensures r.LookupFailed? ==> c.lookup == Failure(r.msg)
    ensures r.Surveyed? ==> forall s :: Get(r.atoms, s).Some? ==>
      exists i :: 0 <= i < |c.lookup.value[0].visits| && c.lookup.value[0].visits[i].payload.DataBox?
                  && Get(r.atoms, s) == Some(c.lookup.value[0].visits[i].payload.data)
  {
    match c.lookup
    case Failure(msg) => LookupFailed(msg)
    case Success(boxes) => if |boxes| == 0 then NoIlst else Surveyed(Walk(NO_ATOMS, boxes[0].visits))
  }

  /** metadata/mp4's File: the reader and one field per atom, filled by a memoised survey. */
  class File {
    const source: Container
    var ilst: Option<nat>
    var covr: Option<nat>
    var desc: Option<Bytes>
    var gen: Option<Bytes>
    var too: Option<Bytes>
    var stik: Option<Bytes>
    var sonm: Option<Bytes>
    var nam: Option<Bytes>
    var tvnn: Option<Bytes>
    var tvsh: Option<Bytes>
    var sosn: Option<Bytes>
    var tvsn: Option<Bytes>
    var tves: Option<Bytes>
    var tven: Option<Bytes>
    var day: Option<Bytes>
    var hdvd: Option<Bytes>

    function Recorded(): Atoms
      reads this
    {
      Atoms(covr, desc, gen, too, stik, sonm, nam, tvnn, tvsh, sosn, tvsn, tves, tven, day, hdvd)
    }

    /** Before the survey nothing is recorded; after it, exactly what the walk recorded. */
    ghost predicate Valid()
      reads this
    {
      match ilst
      case None => Recorded() == NO_ATOMS
      case Some(location) =>
        && source.lookup.Success? && |source.lookup.value| > 0
        && location == source.lookup.value[0].location
        && Recorded() == Walk(NO_ATOMS, source.lookup.value[0].visits)
    }

    /** NewFile */
    constructor (source: Container)
      ensures Valid() && this.source == source && ilst.None?
    {
      this.source := source;
      ilst := None;
      covr, desc, gen, too, stik, sonm, nam := None, None, None, None, None, None, None;
      tvnn, tvsh, sosn, tvsn, tves, tven, day, hdvd := None, None, None, None, None, None, None, None;
    }

    /** The walk callback for one box; `failed` when it returns an error. */
    method OnBox(v: Visit) returns (failed: bool)
      modifies this
      ensures ilst == old(ilst)
      ensures failed <==> Aborts(v)
      ensures Recorded() == Callback(old(Recorded()), v).GetOr(old(Recorded()))
    {
      failed := false;
      if !v.supported {
        return;
      }
      if v.underIlstMeta && v.parent.Some? {
        var parent := v.parent.value;
        if parent == COVR {
          covr := Some(v.location);
        } else {
          match v.payload {
            case ReadFailed(_) =>
              failed := true;
            case OtherBox =>
            case DataBox(data) =>
              if parent == DESC {
                desc := Some(data);
              } else if parent == GEN {
                gen := Some(data);
              } else if parent == TOO {
                too := Some(data);
              } else if parent == STIK {
                stik := Some(data);
              } else if parent == SONM {
                sonm := Some(data);
              } else if parent == NAM {
                nam := Some(data);
              } else if parent == TVSH {
                tvsh := Some(data);
              } else if parent == TVSN {
                tvsn := Some(data);
              } else if parent == TVES {
                tves := Some(data);
              } else if parent == DAY {
                day := Some(data);
              } else if parent == HDVD {
                hdvd := Some(data);
              }
              // tvnn, tven, disk, trkn, the store ids, aART, (c)ART, (c)alb, "----" and
              // unknown tags are left alone
          }
        }
      }
    }

    /**
     * survey: look up ilst and walk it once. The memo is set before the walk, so a walk that
     * stops on an error is not retried; a failed lookup sets nothing and is tried again.
     */
    method Survey() returns (err: Option<Error>)
      requires Valid()
      modifies this
      ensures Valid()
      ensures err == Extract(source).SurveyError()
      ensures err.None? <==> ilst.Some?
      ensures old(ilst).Some? ==> unchanged(this)
      ensures err.Some? ==> unchanged(this)
    {
      if ilst.Some? {
        return None;
      }
      match source.lookup {
        case Failure(msg) =>
          return Some(LookupError(msg));
        case Success(boxes) =>
          if |boxes| == 0 {
            return Some(Crash("index out of range [0] with length 0"));
          }
          ilst := Some(boxes[0].location);
          var visits := boxes[0].visits;
          var i := 0;
          while i < |visits|
            invariant 0 <= i <= |visits|
            invariant ilst == Some(boxes[0].location)
            invariant Walk(Recorded(), visits[i..]) == Walk(NO_ATOMS, visits)
          {
            var failed := OnBox(visits[i]);
            if failed {
              break;
            }
            assert visits[i..][1..] == visits[i + 1..];
            i := i + 1;
          }
          return None;
      }
    }

    method Title() returns (r: Result<string, Error>)
      requires Valid()
      modifies this
      ensures Valid() && (old(ilst).Some? ==> unchanged(this))
      ensures ilst.Some? <==> Extract(source).Surveyed?
      ensures r == Extract(source).Title()
    {
      var err := Survey();
      if err.Some? {
        return Failure(err.value);
      }
      if nam.None? {
        return Failure(AtomMissing("(c)nam"));
      }
      return Success(Latin(nam.value));
    }

    method SortTitle() returns (r: Result<string, Error>)
      requires Valid()
      modifies this
      ensures Valid() && (old(ilst).Some? ==> unchanged(this))
      ensures ilst.Some? <==> Extract(source).Surveyed?
      ensures r == Extract(source).SortTitle()
    {
      var err := Survey();
      if err.Some? {
        return Failure(err.value);
      }
      if sonm.None? {
        return Failure(AtomMissing("sonm"));
      }
      return Success(Latin(sonm.value));
    }

    method ReleaseDate() returns (r: Result<string, Error>)
      requires Valid()
      modifies this
      ensures Valid() && (old(ilst).Some? ==> unchanged(this))
      ensures ilst.Some? <==> Extract(source).Surveyed?
      ensures r == Extract(source).ReleaseDate()
    {
      var err := Survey();
      if err.Some? {
        return Failure(err.value);
      }
      if day.None? {
        return Failure(AtomMissing("(c)day"));
      }
      return Success(Latin(day.value));
    }

    method Genre() returns (r: Result<string, Error>)
      requires Valid()
      modifies this
      ensures Valid() && (old(ilst).Some? ==> unchanged(this))
      ensures ilst.Some? <==> Extract(source).Surveyed?
      ensures r == Extract(source).Genre()
    {
      var err := Survey();
      if err.Some? {
        return Failure(err.value);
      }
      if gen.None? {
        return Failure(AtomMissing("(c)gen"));
      }
      return Success(Latin(gen.value));
    }

    method Description() returns (r: Result<string, Error>)
      requires Valid()
      modifies this
      ensures Valid() && (old(ilst).Some? ==> unchanged(this))
      ensures ilst.Some? <==> Extract(source).Surveyed?
      ensures r == Extract(source).Description()
    {
      var err := Survey();
      if err.Some? {
        return Failure(err.value);
      }
      if desc.None? {
        return Failure(AtomMissing("desc"));
      }
      return Success(Latin(desc.value));
    }

    method MediaKind() returns (r: Result<string, Error>)
      requires Valid()
      modifies this
      ensures Valid() && (old(ilst).Some? ==> unchanged(this))
      ensures ilst.Some? <==> Extract(source).Surveyed?
      ensures r == Extract(source).MediaKind()
    {
      var err := Survey();
      if err.Some? {
        return Failure(err.value);
      }
      if stik.None? {
        return Failure(AtomMissing("stik"));
      }
      if |stik.value| == 0 {
        return Failure(Crash("index out of range [0] with length 0"));
      }
      if stik.value[0] == 9 {
        return Success("Movie");
      } else if stik.value[0] == 10 {
        return Success("TV Show");
      }
      return Failure(UnknownStik(stik.value[0]));
    }

    method TVShowName() returns (r: Result<string, Error>)
      requires Valid()
      modifies this
      ensures Valid() && (old(ilst).Some? ==> unchanged(this))
      ensures ilst.Some? <==> Extract(source).Surveyed?
      ensures r == Extract(source).TVShowName()
    {
      var err := Survey();
      if err.Some? {
        return Failure(err.value);
      }
      if tvsh.None? {
        return Failure(AtomMissing("tvsh"));
      }
      return Success(Latin(tvsh.value));
    }

    method TVSortShowName() returns (r: Result<string, Error>)
      requires Valid()
      modifies this
      ensures Valid() && (old(ilst).Some? ==> unchanged(this))
      ensures ilst.Some? <==> Extract(source).Surveyed?
      ensures r == Extract(source).TVSortShowName()
    {
      var err := Survey();
      if err.Some? {
        return Failure(err.value);
      }
      if sosn.None? {
        return Failure(AtomMissing("sosn"));
      }
      return Success(Latin(sosn.value));
    }

    method TVSeason() returns (r: Result<int, Error>)
      requires Valid()
      modifies this
      ensures Valid() && (old(ilst).Some? ==> unchanged(this))
      ensures ilst.Some? <==> Extract(source).Surveyed?
      ensures r == Extract(source).TVSeason()
    {
      var err := Survey();
      if err.Some? {
        return Failure(err.value);
      }
      if tvsn.None? {
        return Failure(AtomMissing("tvsn"));
      }
      return Success(Int32BE(tvsn.value));
    }

    method TVEpisode() returns (r: Result<int, Error>)
      requires Valid()
      modifies this
      ensures Valid() && (old(ilst).Some? ==> unchanged(this))
      ensures ilst.Some? <==> Extract(source).Surveyed?
      ensures r == Extract(source).TVEpisode()
    {
      var err := Survey();
      if err.Some? {
        return Failure(err.value);
      }
      if tvsn.None? {
        return Failure(AtomMissing("tves"));
      }
      if tves.None? {
        return Failure(Crash("nil pointer dereference"));
      }
      return Success(Int32BE(tves.value));
    }
  }

  // Properties of the classification and of the walk

  /** A recognised tag stores the payload in its own field and touches no other field. */
  lemma RecordSetsOnlyItsSlot(a: Atoms, t: BoxType, data: Bytes, s: Slot)
    requires SlotOf(t) != Ignored && s != Ignored
    ensures Get(Record(a, SlotOf(t), data), s) == if s == SlotOf(t) then Some(data) else Get(a, s)
    ensures Record(a, SlotOf(t), data).covr == a.covr
    ensures Record(a, SlotOf(t), data).sosn == a.sosn
  {
  }

  /** The tags the dispatch names but ignores, and every unknown tag, change nothing. */
  lemma IgnoredTagsChangeNothing(a: Atoms, t: BoxType, data: Bytes)
    requires t in IGNORED_TAGS || t !in {DESC, GEN, TOO, STIK, SONM, NAM, TVSH, TVSN, TVES, DAY, HDVD}
    ensures SlotOf(t) == Ignored
    ensures Record(a, SlotOf(t), data) == a
  {
  }

  /** Of two data boxes with the same parent, the later one is what stays recorded. */
  lemma LaterBoxOverwrites(a: Atoms, first: Visit, second: Visit)
    requires Relevant(first) && Relevant(second) && first.parent == second.parent
    requires first.parent.value != COVR
    requires first.payload.DataBox? && second.payload.DataBox?
    ensures Walk(a, [first, second]) == Walk(a, [second])
  {
    assert [first, second][1..] == [second];
    assert [second][1..] == [];
  }

  /**
   * A payload read error ends the walk: what was recorded before it stays, and nothing after
   * it is looked at.
   */
  lemma {:induction false} WalkStopsAtFailedRead(a: Atoms, before: seq<Visit>, failed: Visit, after: seq<Visit>)
    requires forall i :: 0 <= i < |before| ==> !Aborts(before[i])
    requires Aborts(failed)
    ensures Walk(a, before + [failed] + after) == Walk(a, before)
    decreases |before|
  {
    if before == [] {
      assert before + [failed] + after == [failed] + after;
    } else {
      var next := Callback(a, before[0]).value;
      assert (before + [failed] + after)[1..] == before[1..] + [failed] + after;
      WalkStopsAtFailedRead(next, before[1..], failed, after);
    }
  }

  /** No dispatch case stores sosn (nor tvnn, tven): the walk never changes them. */
  lemma {:induction false} WalkNeverStoresSosn(a: Atoms, visits: seq<Visit>)
    ensures Walk(a, visits).sosn == a.sosn
    ensures Walk(a, visits).tvnn == a.tvnn && Walk(a, visits).tven == a.tven
    decreases |visits|
  {
    if visits != [] {
      match Callback(a, visits[0])
      case None =>
      case Some(next) => WalkNeverStoresSosn(next, visits[1..]);
    }
  }

  // Properties of the accessors

  /** A failed survey is what every accessor reports. */
  lemma SurveyErrorReachesEveryAccessor(x: Extraction)
    requires x.SurveyError().Some?
    ensures x.Title() == Failure(x.SurveyError().value)
    ensures x.SortTitle() == Failure(x.SurveyError().value)
    ensures x.ReleaseDate() == Failure(x.SurveyError().value)
    ensures x.Genre() == Failure(x.SurveyError().value)
    ensures x.Description() == Failure(x.SurveyError().value)
    ensures x.TVShowName() == Failure(x.SurveyError().value)
    ensures x.TVSortShowName() == Failure(x.SurveyError().value)
    ensures x.MediaKind() == Failure(x.SurveyError().value)
    ensures x.TVSeason() == Failure(x.SurveyError().value)
    ensures x.TVEpisode() == Failure(x.SurveyError().value)
  {
  }

  /**
   * A text accessor gives the payload's bytes verbatim when its atom was recorded, and names
   * that atom as missing otherwise.
   */
  lemma TextAccessorsAreVerbatim(a: Atoms)
    ensures Surveyed(a).Title().Success? <==> a.nam.Some?
    ensures a.nam.Some? ==> |Surveyed(a).Title().value| == |a.nam.value|
    ensures a.nam.Some? ==> forall i :: 0 <= i < |a.nam.value| ==> Surveyed(a).Title().value[i] as int == a.nam.value[i] as int
    ensures a.nam.None? ==> Surveyed(a).Title() == Failure(AtomMissing("(c)nam"))
    ensures a.sonm.Some? ==> Surveyed(a).SortTitle() == Success(Latin(a.sonm.value))
    ensures a.sonm.None? ==> Surveyed(a).SortTitle() == Failure(AtomMissing("sonm"))
    ensures a.day.Some? ==> Surveyed(a).ReleaseDate() == Success(Latin(a.day.value))
    ensures a.day.None? ==> Surveyed(a).ReleaseDate() == Failure(AtomMissing("(c)day"))
    ensures a.gen.Some? ==> Surveyed(a).Genre() == Success(Latin(a.gen.value))
    ensures a.gen.None? ==> Surveyed(a).Genre() == Failure(AtomMissing("(c)gen"))
    ensures a.desc.Some? ==> Surveyed(a).Description() == Success(Latin(a.desc.value))
    ensures a.desc.None? ==> Surveyed(a).Description() == Failure(AtomMissing("desc"))
    ensures a.tvsh.Some? ==> Surveyed(a).TVShowName() == Success(Latin(a.tvsh.value))
    ensures a.tvsh.None? ==> Surveyed(a).TVShowName() == Failure(AtomMissing("tvsh"))
    ensures a.sosn.Some? ==> Surveyed(a).TVSortShowName() == Success(Latin(a.sosn.value))
    ensures a.sosn.None? ==> Surveyed(a).TVSortShowName() == Failure(AtomMissing("sosn"))
  {
  }

  /** After a successful survey the sort-show-name accessor always reports sosn missing. */
  lemma TVSortShowNameAlwaysMissing(c: Container)
    requires Extract(c).Surveyed?
    ensures Extract(c).TVSortShowName() == Failure(AtomMissing("sosn"))
  {
    WalkNeverStoresSosn(NO_ATOMS, c.lookup.value[0].visits);
  }

  /** stik 9 is a movie, 10 a TV show; any other first byte is an error. */
  lemma MediaKindCodes(a: Atoms)
    ensures Surveyed(a).MediaKind() == Success("Movie") <==> a.stik.Some? && |a.stik.value| > 0 && a.stik.value[0] == 9
    ensures Surveyed(a).MediaKind() == Success("TV Show") <==> a.stik.Some? && |a.stik.value| > 0 && a.stik.value[0] == 10
    ensures a.stik.Some? && |a.stik.value| > 0 && a.stik.value[0] !in {9, 10} ==>
              Surveyed(a).MediaKind() == Failure(UnknownStik(a.stik.value[0]))
    ensures a.stik.None? ==> Surveyed(a).MediaKind() == Failure(AtomMissing("stik"))
  {
  }

  /** The episode accessor decides absence by tvsn, not by tves. */
  lemma TVEpisodeTestsTvsn(a: Atoms)
    ensures a.tvsn.None? ==> Surveyed(a).TVEpisode() == Failure(AtomMissing("tves"))
    ensures a.tvsn.Some? && a.tves.None? ==> Surveyed(a).TVEpisode().Failure? && Surveyed(a).TVEpisode().error.Crash?
    ensures a.tvsn.Some? && a.tves.Some? ==> Surveyed(a).TVEpisode() == Success(Int32BE(a.tves.value))
  {
  }

  /** A season payload shorter than four bytes reads as season 0, not as an error. */
  lemma ShortSeasonIsZero(a: Atoms)
    requires a.tvsn.Some? && |a.tvsn.value| < 4
    ensures Surveyed(a).TVSeason() == Success(0)
  {
  }

  /** One big-endian digit in base 256: dividing drops it, the remainder is it. */
  lemma Base256Digit(high: int, low: int)
    requires 0 <= low < 256
    ensures (high * 256 + low) / 256 == high && (high * 256 + low) % 256 == low
  {
  }

  /** Decoding the four big-endian bytes of a 32-bit integer gives it back. */
  lemma Int32RoundTrip(n: int)
    requires -0x8000_0000 <= n < 0x8000_0000
    ensures Int32BE(EncodeInt32BE(n)) == n
  {
    var u := if n < 0 then n + 0x1_0000_0000 else n;
    var q1, q2, q3 := u / 256, u / 256 / 256, u / 256 / 256 / 256;
    Base256Digit(q1, u % 256);
    Base256Digit(q2, q1 % 256);
    Base256Digit(q3, q2 % 256);
    assert u == ((q3 * 256 + q2 % 256) * 256 + q1 % 256) * 256 + u % 256;
  }

  /** Only the first four bytes count, and any four bytes are the encoding of what they decode to. */
  lemma Int32DecodeEncode(b: Bytes)
    requires |b| >= 4
    ensures Int32BE(b) == Int32BE(b[..4])
    ensures EncodeInt32BE(Int32BE(b)) == b[..4]
  {
    var b0, b1, b2, b3 := b[0] as int, b[1] as int, b[2] as int, b[3] as int;
    var u := ((b0 * 256 + b1) * 256 + b2) * 256 + b3;
    Base256Digit((b0 * 256 + b1) * 256 + b2, b3);
    Base256Digit(b0 * 256 + b1, b2);
    Base256Digit(b0, b1);
    var e := EncodeInt32BE(Int32BE(b));
    assert e == [b0 as byte, b1 as byte, b2 as byte, b3 as byte];
  }
}
