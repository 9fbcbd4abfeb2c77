/**
 * The team section (components/team/TeamSection.tsx): the members read from
 * the database, or a generated roster of fifteen placeholders when there
 * are none.
 */
module TeamSection {
  import opened Common
  import opened Decimal

  /** A row of the `members` table. */
  datatype Member = Member(
    id: int,
    name: string,
    nickname: string,
    role: string,
    quote: string,
    instagram: string,
    imageUrl: Option<string>,
    order: int)

  const RosterSize := 15
  const LeaderRole := "หัวหน้าพรรค (เบอร์ 03)"
  const DeputyRole := "รองหัวหน้าพรรค"
  const CommitteeRole := "กรรมการพรรค"
  const MockQuote := "สภา GenZ คิดนอกกรอบ ตอบโจทย์ทุกไลฟ์สไตล์"
  const NamePrefix := "ชื่อ-นามสกุล จริง คนที่ "
  const NicknamePrefix := "สมาชิก "
  const InstagramPrefix := "genz_ignite_"
  const ImagePrefix := "/team/member-"

  function RoleAt(i: nat): string
  {
    if i == 0 then LeaderRole else if i < 3 then DeputyRole else CommitteeRole
  }

  /** The placeholder at index `i`: numbered `i + 1` and ordered `i`. */
  function MockMember(i: nat): Member
  {
    var k := ToDecimal(i + 1);
    Member(i + 1, NamePrefix + k, NicknamePrefix + k, RoleAt(i), MockQuote,
      InstagramPrefix + k, Some(ImagePrefix + k + ".jpg"), i)
  }

  function MockMembers(): seq<Member>
  {
    seq(RosterSize, i requires 0 <= i => MockMember(i))
  }

  /** `data && data.length > 0 ? data : mock`; a failed query returns no data. */
  function Shown(f: Fetch<Member>): seq<Member>
  {
    if f.Rows? && |f.rows| > 0 then f.rows else MockMembers()
  }

  /** Fetched members are shown as they are; otherwise the placeholder roster. Something is always shown. */
  lemma ShownFallback(f: Fetch<Member>)
    ensures f.Rows? && f.rows != [] ==> Shown(f) == f.rows
    ensures f.FetchError? || f.rows == [] ==> Shown(f) == MockMembers()
    ensures |Shown(f)| > 0
  {
  }

  /**
   * The placeholder roster: fifteen members, the one at index `i` with id
   * `i + 1` and order `i` (so in the order the query sorts by); one leader
   * first, two deputies next, committee members after.
   */
  lemma MockRosterShape()
    ensures |MockMembers()| == 15
    ensures forall i :: 0 <= i < |MockMembers()| ==>
      MockMembers()[i].id == i + 1 && MockMembers()[i].order == i
    ensures forall i :: 0 <= i < |MockMembers()| ==>
      (MockMembers()[i].role == LeaderRole <==> i == 0) &&
      (MockMembers()[i].role == DeputyRole <==> 1 <= i < 3) &&
      (MockMembers()[i].role == CommitteeRole <==> 3 <= i)
    ensures forall i, j :: 0 <= i < j < |MockMembers()| ==> MockMembers()[i].order < MockMembers()[j].order
  {
    assert LeaderRole != DeputyRole && LeaderRole != CommitteeRole && DeputyRole != CommitteeRole by {
      assert |LeaderRole| != |DeputyRole| && |LeaderRole| != |CommitteeRole| && |DeputyRole| != |CommitteeRole|;
    }
  }

  /** Prefixing the same text keeps distinct numbers' renderings distinct. */
  lemma PrefixedNumberInjective(prefix: string, a: nat, b: nat, suffix: string)
    ensures prefix + ToDecimal(a) + suffix == prefix + ToDecimal(b) + suffix ==> a == b
  {
    if prefix + ToDecimal(a) + suffix == prefix + ToDecimal(b) + suffix {
      var s := prefix + ToDecimal(a) + suffix;
      var t := prefix + ToDecimal(b) + suffix;
      assert |ToDecimal(a)| == |ToDecimal(b)|;
      assert s[|prefix|..|s| - |suffix|] == ToDecimal(a);
      assert t[|prefix|..|t| - |suffix|] == ToDecimal(b);
      ToDecimalInjective(a, b);
    }
  }

  /**
   * Each placeholder's name, nickname, Instagram handle and image path embed
   * its number, so no two placeholders share any of them.
   */
  lemma MockMembersDistinct(i: nat, j: nat)
    requires i < RosterSize && j < RosterSize && i != j
    ensures MockMembers()[i].name != MockMembers()[j].name
    ensures MockMembers()[i].nickname != MockMembers()[j].nickname
    ensures MockMembers()[i].instagram != MockMembers()[j].instagram
    ensures MockMembers()[i].imageUrl != MockMembers()[j].imageUrl
  {
    PrefixedNumberInjective(NamePrefix, i + 1, j + 1, "");
    PrefixedNumberInjective(NicknamePrefix, i + 1, j + 1, "");
    PrefixedNumberInjective(InstagramPrefix, i + 1, j + 1, "");
    PrefixedNumberInjective(ImagePrefix, i + 1, j + 1, ".jpg");
    assert NamePrefix + ToDecimal(i + 1) + "" == NamePrefix + ToDecimal(i + 1);
    assert NamePrefix + ToDecimal(j + 1) + "" == NamePrefix + ToDecimal(j + 1);
    assert NicknamePrefix + ToDecimal(i + 1) + "" == NicknamePrefix + ToDecimal(i + 1);
    assert NicknamePrefix + ToDecimal(j + 1) + "" == NicknamePrefix + ToDecimal(j + 1);
    assert InstagramPrefix + ToDecimal(i + 1) + "" == InstagramPrefix + ToDecimal(i + 1);
    assert InstagramPrefix + ToDecimal(j + 1) + "" == InstagramPrefix + ToDecimal(j + 1);
  }
}
