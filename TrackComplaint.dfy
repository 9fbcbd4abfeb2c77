/**
 * The complaint tracking page (app/report/track/page.tsx): trimming and
 * validating the reference code, and the state a lookup leaves behind.
 */
module TrackComplaint {
  import opened Common
  import opened ComplaintTypes
  import opened JsText

  const BlankMessage := "กรุณากรอกรหัสอ้างอิง"
  const FormatMessage := "รูปแบบรหัสอ้างอิงไม่ถูกต้อง (ต้องเป็น UUID)"
  const NotFoundMessage := "ไม่พบเรื่องร้องเรียนจากรหัสอ้างอิงนี้"
  const ConnectionMessage := "เกิดข้อผิดพลาดในการเชื่อมต่อระบบ"

  // ---------------------------------------------------------------- UUID

  /** `[0-9a-f]` under the regular expression's `i` flag. */
  predicate IsHex(c: char)
  {
    ('0' <= c <= '9') || ('a' <= c <= 'f') || ('A' <= c <= 'F')
  }

  predicate IsHyphenPosition(i: int) { i == 8 || i == 13 || i == 18 || i == 23 }

  /**
   * `/^[0-9a-f]{8}-[0-9a-f]{4}-[1-5][0-9a-f]{3}-[89ab][0-9a-f]{3}-[0-9a-f]{12}$/i`:
   * the hyphenated 8-4-4-4-12 hexadecimal form of RFC 4122 section 3, with a
   * version digit 1 to 5 (section 4.1.3) and variant bits 10xx (section 4.1.1).
   */
  predicate IsUuid(s: string)
  {
    && |s| == 36
    && (forall i :: 0 <= i < 36 && IsHyphenPosition(i) ==> s[i] == '-')
    && (forall i :: 0 <= i < 36 && !IsHyphenPosition(i) ==> IsHex(s[i]))
    && '1' <= s[14] <= '5'
    && s[19] in "89abAB"
  }

  /** The 32 hexadecimal digits of a UUID in its textual, hyphenated layout. */
  function Hyphenate(h: string): (s: string)
    requires |h| == 32
    ensures |s| == 36
  {
    h[..8] + "-" + h[8..12] + "-" + h[12..16] + "-" + h[16..20] + "-" + h[20..]
  }

  /** The digits of a 36-character text with its four hyphen positions removed. */
  function Unhyphenate(s: string): (h: string)
    requires |s| == 36
    ensures |h| == 32
  {
    s[..8] + s[9..13] + s[14..18] + s[19..23] + s[24..]
  }

  /** 32 hex digits with the version digit (index 12) and the variant digit (index 16) in range. */
  predicate IsUuidDigits(h: string)
  {
    |h| == 32 && (forall i :: 0 <= i < 32 ==> IsHex(h[i])) && '1' <= h[12] <= '5' && h[16] in "89abAB"
  }

  lemma HyphenateAt(h: string, i: int)
    requires |h| == 32 && 0 <= i < 36
    ensures IsHyphenPosition(i) ==> Hyphenate(h)[i] == '-'
    ensures 0 <= i < 8 ==> Hyphenate(h)[i] == h[i]
    ensures 9 <= i < 13 ==> Hyphenate(h)[i] == h[i - 1]
    ensures 14 <= i < 18 ==> Hyphenate(h)[i] == h[i - 2]
    ensures 19 <= i < 23 ==> Hyphenate(h)[i] == h[i - 3]
    ensures 24 <= i < 36 ==> Hyphenate(h)[i] == h[i - 4]
  {
  }

  /** Every well-formed digit string, hyphenated, passes the check. */
  lemma HyphenatedIsAccepted(h: string)
    requires IsUuidDigits(h)
    ensures IsUuid(Hyphenate(h))
  {
    var s := Hyphenate(h);
    forall i | 0 <= i < 36 ensures IsHyphenPosition(i) ==> s[i] == '-'
      ensures !IsHyphenPosition(i) ==> IsHex(s[i])
    {
      HyphenateAt(h, i);
    }
    HyphenateAt(h, 14);
    HyphenateAt(h, 19);
  }

  /** Every accepted text is the hyphenated form of well-formed digits. */
  lemma AcceptedIsHyphenated(s: string)
    requires IsUuid(s)
    ensures IsUuidDigits(Unhyphenate(s)) && Hyphenate(Unhyphenate(s)) == s
  {
    var h := Unhyphenate(s);
    forall i | 0 <= i < 32 ensures IsHex(h[i]) {
      var j := if i < 8 then i else if i < 12 then i + 1 else if i < 16 then i + 2
               else if i < 20 then i + 3 else i + 4;
      assert h[i] == s[j] && !IsHyphenPosition(j);
    }
    assert h[12] == s[14] && h[16] == s[19];
    var t := Hyphenate(h);
    forall i | 0 <= i < 36 ensures t[i] == s[i] {
      HyphenateAt(h, i);
    }
  }

  /** The check accepts exactly the hyphenated forms of well-formed digit strings. */
  lemma IsUuidCharacterised(s: string)
    ensures IsUuid(s) <==> (|s| == 36 && IsUuidDigits(Unhyphenate(s)) && Hyphenate(Unhyphenate(s)) == s)
  {
    if IsUuid(s) {
      AcceptedIsHyphenated(s);
    } else if |s| == 36 && IsUuidDigits(Unhyphenate(s)) && Hyphenate(Unhyphenate(s)) == s {
      HyphenatedIsAccepted(Unhyphenate(s));
    }
  }

  // ---------------------------------------------------------------- search

  /** What the input check before the query decides. */
  datatype Validation = Blank | BadFormat | Valid(code: string)

  function Validate(input: string): Validation
  {
    var t := Trim(input);
    if t == "" then Blank else if IsUuid(t) then Valid(t) else BadFormat
  }

  /**
   * A blank input is rejected first, a malformed one second; what is queried
   * is the trimmed text, which is a UUID; space around the input is ignored.
   */
  lemma ValidateFaithful(w1: string, input: string, w2: string)
    requires AllSpace(w1) && AllSpace(w2)
    ensures Validate(input).Blank? <==> Trim(input) == ""
    ensures Validate(input).Valid? <==> IsUuid(Trim(input))
    ensures Validate(input).Valid? ==> Validate(input).code == Trim(input)
    ensures Validate(w1 + input + w2) == Validate(input)
  {
    TrimIgnoresSurroundingSpace(w1, input, w2);
  }

  /** How the lookup ended: a row, a query error or no row, or an exception. */
  datatype Response = Found(row: Complaint) | NotFound | Thrown

  /** The admin reply is displayed. */
  predicate ShowsReply(c: Complaint)
  {
    c.status == "resolved" && c.adminReply.Some? && c.adminReply.value != ""
  }

  /** The status badge of the result. */
  function ResultBadge(status: string): string
  {
    if status == "resolved" then "แก้ไขแล้ว" else "รอดำเนินการ"
  }

  /** What the result card shows: its status badge and, when present, the admin's reply. */
  datatype Card = Card(badge: string, reply: Option<string>)

  function ResultCard(c: Complaint): Card
  {
    Card(ResultBadge(c.status), if ShowsReply(c) then c.adminReply else None)
  }

  /**
   * The badge and the reply box of one card never contradict each other: a
   * reply only appears under the "resolved" badge, and it is the stored, non-empty reply;
   * the badge does not depend on the reply; reopening a complaint hides its
   * reply, and resolving one with a reply shows it.
   */
  lemma ReplyOnlyWhenResolved(c: Complaint, r: Option<string>)
    ensures ResultCard(c).reply.Some? ==> ResultCard(c).badge == "แก้ไขแล้ว"
    ensures ResultCard(c).badge == "รอดำเนินการ" ==> ResultCard(c).reply.None?
    ensures ResultCard(c).reply.Some? ==> ResultCard(c).reply == c.adminReply && c.adminReply.value != ""
    ensures ResultCard(c.(adminReply := r)).badge == ResultCard(c).badge
    ensures c.status != "resolved" ==> ResultCard(c.(adminReply := r)).reply.None?
    ensures ResultCard(c.(status := "pending")).reply.None?
    ensures c.adminReply.Some? && c.adminReply.value != "" ==>
      ResultCard(c.(status := "resolved")).reply == c.adminReply
  {
  }

  class TrackPage {
    var trackId: string
    var loading: bool
    var result: Option<Complaint>
    var error: string
    /** Track ids queried so far. */
    ghost var queries: seq<string>

    constructor ()
      ensures trackId == "" && !loading && result == None && error == "" && queries == []
    {
      trackId := "";
      loading := false;
      result := None;
      error := "";
      queries := [];
    }

    /** Typing into the field. */
    method Type(value: string)
      modifies this
      ensures trackId == value
      ensures loading == old(loading) && result == old(result) && error == old(error)
      ensures queries == old(queries)
    {
      trackId := value;
    }

    /**
     * The synchronous part of `handleSearch`: a blank or malformed code sets
     * its message and issues no query; a valid one sets `loading`, clears the
     * message and the previous result, and queries the checked code (the
     * trimmed input, by `ValidateFaithful`). The search button is disabled
     * while a query is in flight, so no search starts then.
     */
    method Search()
      requires !loading
      modifies this
      ensures trackId == old(trackId)
      ensures Validate(trackId).Blank? ==>
        error == BlankMessage && loading == old(loading) && result == old(result) && queries == old(queries)
      ensures Validate(trackId).BadFormat? ==>
        error == FormatMessage && loading == old(loading) && result == old(result) && queries == old(queries)
      ensures Validate(trackId).Valid? ==>
        loading && error == "" && result == None && queries == old(queries) + [Validate(trackId).code]
    {
      var v := Validate(trackId);
      Apply(v);
    }

    /** The state change `handleSearch` makes for the outcome `v` of the input check. */
    method Apply(v: Validation)
      requires !loading
      modifies this
      ensures trackId == old(trackId)
      ensures v.Blank? ==>
        error == BlankMessage && loading == old(loading) && result == old(result) && queries == old(queries)
      ensures v.BadFormat? ==>
        error == FormatMessage && loading == old(loading) && result == old(result) && queries == old(queries)
      ensures v.Valid? ==> loading && error == "" && result == None && queries == old(queries) + [v.code]
    {
      match v
      case Blank =>
        error := BlankMessage;
      case BadFormat =>
        error := FormatMessage;
      case Valid(code) =>
        loading := true;
        error := "";
        result := None;
        queries := queries + [code];
    }

    /** The query in flight returns: a row becomes the result, anything else sets a message; loading ends. */
    method FinishSearch(response: Response)
      requires loading
      modifies this
      ensures !loading && trackId == old(trackId) && queries == old(queries)
      ensures response.Found? ==> result == Some(response.row) && error == old(error)
      ensures response.NotFound? ==> error == NotFoundMessage && result == old(result)
      ensures response.Thrown? ==> error == ConnectionMessage && result == old(result)
    {
      match response {
        case Found(row) => result := Some(row);
        case NotFound => error := NotFoundMessage;
        case Thrown => error := ConnectionMessage;
      }
      loading := false;
    }
  }
}
