/**
 * The fixed tables of the Four-Pillars engine: the ten heavenly stems, the
 * twelve earthly branches, their Korean readings, the element (ohang) each
 * belongs to, and the twelve sectional solar terms that open the months.
 */
module Tables {

  /** The ten heavenly stems (cheongan), index 0 = 甲. */
  const Stems: string := "甲乙丙丁戊己庚辛壬癸"
  const StemsKr: seq<string> := ["갑", "을", "병", "정", "무", "기", "경", "신", "임", "계"]

  /** The twelve earthly branches (jiji), index 0 = 子. */
  const Branches: string := "子丑寅卯辰巳午未申酉戌亥"
  const BranchesKr: seq<string> := ["자", "축", "인", "묘", "진", "사", "오", "미", "신", "유", "술", "해"]

  /** The five elements, in the order the tally lists them. */
  const Wood: string := "木"
  const Fire: string := "火"
  const Earth: string := "土"
  const Metal: string := "金"
  const Water: string := "水"
  const ElementSet: set<string> := {Wood, Fire, Earth, Metal, Water}

  const StemOhang: map<char, string> := map[
    '甲' := Wood, '乙' := Wood, '丙' := Fire, '丁' := Fire, '戊' := Earth,
    '己' := Earth, '庚' := Metal, '辛' := Metal, '壬' := Water, '癸' := Water]

  const BranchOhang: map<char, string> := map[
    '子' := Water, '丑' := Earth, '寅' := Wood, '卯' := Wood, '辰' := Earth,
    '巳' := Fire, '午' := Fire, '未' := Earth, '申' := Metal, '酉' := Metal,
    '戌' := Earth, '亥' := Water]

  /** The twelve sectional terms, in month order: month 1 opens at 입춘, month 12 at 소한. */
  const Ipchun: string := "입춘"
  const Sohan: string := "소한"
  const SectionalTerms: seq<string> := [
    Ipchun, "경칩", "청명", "입하", "망종", "소서",
    "입추", "백로", "한로", "입동", "대설", Sohan]

  /** No glyph appears twice in the stem table. */
  lemma StemsDistinct()
    ensures |Stems| == 10
    ensures forall i, j :: 0 <= i < j < 10 ==> Stems[i] != Stems[j]
  {
  }

  /** No glyph appears twice in the branch table. */
  lemma BranchesDistinct()
    ensures |Branches| == 12
    ensures forall i, j :: 0 <= i < j < 12 ==> Branches[i] != Branches[j]
  {
  }

  /** Every stem and every branch has an element, and it is one of the five. */
  lemma OhangTablesTotal()
    ensures forall c :: c in Stems ==> c in StemOhang && StemOhang[c] in ElementSet
    ensures forall c :: c in Branches ==> c in BranchOhang && BranchOhang[c] in ElementSet
    ensures StemOhang.Keys == set c | c in Stems
    ensures BranchOhang.Keys == set c | c in Branches
  {
  }
}
