/** The static station directory and the three-tier autocomplete search over it. */
module Stations {
  import opened Types
  import opened Seqs

  datatype Station = Station(name: string, lat: real, lng: real, lines: seq<string>)

  /** The directory, in table order, as the concatenation of its four
      sections. The name "新橋" is listed twice. */
  const STATIONS: seq<Station> := CHUO_LINE + YAMANOTE_LINE + MARUNOUCHI_LINE + HUBS

  /** Stations on the JR Chuo line. */
  const CHUO_LINE: seq<Station> := [
    Station("東京", 35.6812, 139.7671, ["JR中央線", "JR山手線", "丸ノ内線"]),
    Station("神田", 35.6918, 139.7709, ["JR中央線", "JR山手線", "銀座線"]),
    Station("御茶ノ水", 35.6994, 139.7653, ["JR中央線", "丸ノ内線"]),
    Station("四ツ谷", 35.6860, 139.7300, ["JR中央線", "丸ノ内線", "南北線"]),
    Station("新宿", 35.6896, 139.7006, ["JR中央線", "JR山手線", "丸ノ内線", "都営新宿線", "都営大江戸線", "京王線", "小田急線"]),
    Station("中野", 35.7074, 139.6659, ["JR中央線", "東西線"]),
    Station("高円寺", 35.7054, 139.6496, ["JR中央線"]),
    Station("阿佐ヶ谷", 35.7043, 139.6355, ["JR中央線"]),
    Station("荻窪", 35.7041, 139.6199, ["JR中央線", "丸ノ内線"]),
    Station("西荻窪", 35.7032, 139.5998, ["JR中央線"]),
    Station("吉祥寺", 35.7030, 139.5796, ["JR中央線", "京王井の頭線"]),
    Station("三鷹", 35.7028, 139.5607, ["JR中央線"]),
    Station("国分寺", 35.7009, 139.4804, ["JR中央線", "西武国分寺線"]),
    Station("立川", 35.6979, 139.4138, ["JR中央線", "JR南武線", "多摩モノレール"])
  ]

  /** Stations on the JR Yamanote line. */
  const YAMANOTE_LINE: seq<Station> := [
    Station("渋谷", 35.6581, 139.7017, ["JR山手線", "銀座線", "半蔵門線", "副都心線", "東急東横線", "京王井の頭線"]),
    Station("原宿", 35.6702, 139.7026, ["JR山手線", "副都心線"]),
    Station("代々木", 35.6836, 139.7020, ["JR山手線", "都営大江戸線"]),
    Station("池袋", 35.7295, 139.7109, ["JR山手線", "丸ノ内線", "副都心線", "有楽町線", "東武東上線", "西武池袋線"]),
    Station("目黒", 35.6337, 139.7158, ["JR山手線", "南北線", "都営三田線", "東急目黒線"]),
    Station("恵比寿", 35.6467, 139.7101, ["JR山手線", "日比谷線"]),
    Station("品川", 35.6284, 139.7387, ["JR山手線", "JR東海道線", "京急線"]),
    Station("田町", 35.6457, 139.7475, ["JR山手線", "都営三田線"]),
    Station("浜松町", 35.6555, 139.7568, ["JR山手線", "都営大江戸線", "東京モノレール"]),
    Station("新橋", 35.6660, 139.7583, ["JR山手線", "銀座線", "都営浅草線", "ゆりかもめ"]),
    Station("有楽町", 35.6748, 139.7630, ["JR山手線", "有楽町線"]),
    Station("秋葉原", 35.6984, 139.7731, ["JR山手線", "JR総武線", "日比谷線", "つくばエクスプレス"]),
    Station("上野", 35.7141, 139.7774, ["JR山手線", "銀座線", "日比谷線", "京成線"]),
    Station("日暮里", 35.7280, 139.7708, ["JR山手線", "京成線", "日暮里・舎人ライナー"]),
    Station("大塚", 35.7318, 139.7286, ["JR山手線"]),
    Station("巣鴨", 35.7336, 139.7394, ["JR山手線", "都営三田線"]),
    Station("駒込", 35.7364, 139.7470, ["JR山手線", "南北線"]),
    Station("高田馬場", 35.7121, 139.7038, ["JR山手線", "東西線", "西武新宿線"])
  ]

  /** Stations on the Marunouchi line. */
  const MARUNOUCHI_LINE: seq<Station> := [
    Station("銀座", 35.6717, 139.7637, ["銀座線", "丸ノ内線", "日比谷線"]),
    Station("赤坂見附", 35.6770, 139.7370, ["銀座線", "丸ノ内線"]),
    Station("新高円寺", 35.6951, 139.6447, ["丸ノ内線"]),
    Station("南阿佐ヶ谷", 35.6979, 139.6353, ["丸ノ内線"])
  ]

  /** Major terminals and nightlife districts. */
  const HUBS: seq<Station> := [
    Station("六本木", 35.6627, 139.7311, ["日比谷線", "都営大江戸線"]),
    Station("赤坂", 35.6729, 139.7371, ["千代田線"]),
    Station("表参道", 35.6653, 139.7122, ["銀座線", "半蔵門線", "千代田線"]),
    Station("中目黒", 35.6443, 139.6989, ["日比谷線", "東急東横線"]),
    Station("三軒茶屋", 35.6437, 139.6700, ["東急田園都市線", "東急世田谷線"]),
    Station("下北沢", 35.6612, 139.6676, ["小田急線", "京王井の頭線"]),
    Station("明大前", 35.6683, 139.6510, ["京王線", "京王井の頭線"]),
    Station("永田町", 35.6783, 139.7385, ["有楽町線", "半蔵門線", "南北線"]),
    Station("飯田橋", 35.7020, 139.7451, ["JR総武線", "東西線", "有楽町線", "南北線", "都営大江戸線"]),
    Station("大手町", 35.6863, 139.7639, ["丸ノ内線", "東西線", "千代田線", "半蔵門線", "都営三田線"]),
    Station("日本橋", 35.6819, 139.7745, ["銀座線", "東西線", "都営浅草線"]),
    Station("北千住", 35.7497, 139.8050, ["JR常磐線", "千代田線", "日比谷線", "東武スカイツリーライン", "つくばエクスプレス"]),
    Station("錦糸町", 35.6964, 139.8147, ["JR総武線", "半蔵門線"]),
    Station("押上", 35.7107, 139.8131, ["半蔵門線", "都営浅草線", "京成押上線", "東武スカイツリーライン"]),
    Station("横浜", 35.4658, 139.6223, ["JR東海道線", "JR横須賀線", "東急東横線", "京急線", "相鉄線", "横浜市営地下鉄"]),
    Station("川崎", 35.5308, 139.7030, ["JR東海道線", "JR南武線", "京急線"]),
    Station("武蔵小杉", 35.5762, 139.6595, ["JR南武線", "JR横須賀線", "東急東横線"]),
    Station("大宮", 35.9063, 139.6237, ["JR京浜東北線", "JR高崎線", "JR宇都宮線", "東武野田線", "ニューシャトル"]),
    Station("赤羽", 35.7778, 139.7209, ["JR京浜東北線", "JR埼京線", "JR宇都宮線"]),
    Station("蒲田", 35.5625, 139.7161, ["JR京浜東北線", "東急池上線", "東急多摩川線"]),
    Station("五反田", 35.6260, 139.7232, ["JR山手線", "都営浅草線", "東急池上線"]),
    Station("新橋", 35.6660, 139.7583, ["JR山手線", "銀座線", "都営浅草線", "ゆりかもめ"]),
    Station("神保町", 35.6959, 139.7577, ["半蔵門線", "都営三田線", "都営新宿線"]),
    Station("九段下", 35.6951, 139.7513, ["東西線", "半蔵門線", "都営新宿線"]),
    Station("市ヶ谷", 35.6914, 139.7361, ["JR総武線", "有楽町線", "南北線", "都営新宿線"]),
    Station("溜池山王", 35.6736, 139.7410, ["銀座線", "南北線"]),
    Station("虎ノ門", 35.6685, 139.7503, ["銀座線", "日比谷線"]),
    Station("麻布十番", 35.6553, 139.7368, ["南北線", "都営大江戸線"]),
    Station("広尾", 35.6512, 139.7225, ["日比谷線"]),
    Station("西新宿", 35.6943, 139.6923, ["丸ノ内線"]),
    Station("東中野", 35.7075, 139.6823, ["JR総武線", "都営大江戸線"]),
    Station("方南町", 35.6838, 139.6473, ["丸ノ内線"])
  ]

  /** The number of suggestions returned when the caller gives no limit. */
  const DEFAULT_LIMIT: int := 8

  // ---------------------------------------------------------------------
  // String helpers with JavaScript semantics

  /** The code points `String.prototype.trim` strips: the ECMAScript
      WhiteSpace and LineTerminator characters. */
  predicate IsJsWhitespace(c: char) {
    var n := c as int;
    || n == 0x09 || n == 0x0A || n == 0x0B || n == 0x0C || n == 0x0D
    || n == 0x20 || n == 0xA0 || n == 0x1680 || 0x2000 <= n <= 0x200A
    || n == 0x2028 || n == 0x2029 || n == 0x202F || n == 0x205F
    || n == 0x3000 || n == 0xFEFF
  }

  predicate AllWhitespace(s: string) {
    forall i :: 0 <= i < |s| ==> IsJsWhitespace(s[i])
  }

  /** The first position at or after `i` that does not hold whitespace, or
      `|s|` when there is none. */
  function SkipLeading(s: string, i: nat): (j: nat)
    requires i <= |s|
    ensures i <= j <= |s|
    ensures forall n :: i <= n < j ==> IsJsWhitespace(s[n])
    ensures j < |s| ==> !IsJsWhitespace(s[j])
    decreases |s| - i
  {
    if i < |s| && IsJsWhitespace(s[i]) then SkipLeading(s, i + 1) else i
  }

  /** The end of `s[lo..j]` once its trailing whitespace is dropped. */
  function SkipTrailing(s: string, lo: nat, j: nat): (e: nat)
    requires lo <= j <= |s|
    ensures lo <= e <= j
    ensures forall n :: e <= n < j ==> IsJsWhitespace(s[n])
    ensures e > lo ==> !IsJsWhitespace(s[e - 1])
    decreases j
  {
    if j > lo && IsJsWhitespace(s[j - 1]) then SkipTrailing(s, lo, j - 1) else j
  }

  /** `r` occurs in `s` at offset `i` with only whitespace before and after it. */
  predicate TrimmedAt(s: string, r: string, i: int) {
    && 0 <= i <= |s| - |r| && s[i..i + |r|] == r
    && (forall n :: 0 <= n < i ==> IsJsWhitespace(s[n]))
    && (forall n :: i + |r| <= n < |s| ==> IsJsWhitespace(s[n]))
  }

  /** `String.prototype.trim`: the infix of `s` left once whitespace is
      stripped from both ends. */
  function Trim(s: string): (r: string)
    ensures exists i :: TrimmedAt(s, r, i)
    ensures r != [] ==> !IsJsWhitespace(r[0]) && !IsJsWhitespace(r[|r| - 1])
    ensures r == [] <==> AllWhitespace(s)
  {
    var b := SkipLeading(s, 0);
    var e := SkipTrailing(s, b, |s|);
    assert TrimmedAt(s, s[b..e], b);
    assert e == b ==> b == |s|;
    s[b..e]
  }

  /** An infix surrounded by whitespace, with no whitespace at its own ends,
      is what `Trim` returns. */
  lemma TrimUnique(s: string, r: string, i: int)
    requires TrimmedAt(s, r, i)
    requires r != [] && !IsJsWhitespace(r[0]) && !IsJsWhitespace(r[|r| - 1])
    ensures Trim(s) == r
  {
    var t := Trim(s);
    var j :| TrimmedAt(s, t, j);
    assert s[i] == r[0];
    assert t != [];
    assert s[j] == t[0];
    assert i == j;
    assert s[i + |r| - 1] == r[|r| - 1];
    assert s[j + |t| - 1] == t[|t| - 1];
    assert |t| == |r|;
  }

  /** Padding a string with whitespace on both sides keeps each infix
      surrounded by whitespace, shifted by the left padding. */
  lemma PaddedTrimmedAt(w1: string, k: string, w2: string, r: string, i: int)
    requires AllWhitespace(w1) && AllWhitespace(w2) && TrimmedAt(k, r, i)
    ensures TrimmedAt(w1 + k + w2, r, |w1| + i)
  {
    var x := w1 + k + w2;
    var o := |w1| + i;
    assert x[o..o + |r|] == r by {
      forall n | 0 <= n < |r| ensures x[o + n] == r[n] {
        assert x[o + n] == k[i + n];
      }
    }
    forall n | 0 <= n < o ensures IsJsWhitespace(x[n]) {
      if n < |w1| { assert x[n] == w1[n]; } else { assert x[n] == k[n - |w1|]; }
    }
    forall n | o + |r| <= n < |x| ensures IsJsWhitespace(x[n]) {
      if n < |w1| + |k| { assert x[n] == k[n - |w1|]; } else { assert x[n] == w2[n - |w1| - |k|]; }
    }
  }

  /** Whitespace around a keyword does not change what it trims to. */
  lemma TrimIgnoresSurroundingWhitespace(w1: string, k: string, w2: string)
    requires AllWhitespace(w1) && AllWhitespace(w2)
    ensures Trim(w1 + k + w2) == Trim(k)
  {
    var r := Trim(k);
    if r == [] {
      var x := w1 + k + w2;
      forall n | 0 <= n < |x| ensures IsJsWhitespace(x[n]) {
        if n < |w1| { assert x[n] == w1[n]; }
        else if n < |w1| + |k| { assert x[n] == k[n - |w1|]; }
        else { assert x[n] == w2[n - |w1| - |k|]; }
      }
      assert AllWhitespace(x);
    } else {
      var i :| TrimmedAt(k, r, i);
      PaddedTrimmedAt(w1, k, w2, r, i);
      TrimUnique(w1 + k + w2, r, |w1| + i);
    }
  }

  /** `s.startsWith(p)`. */
  predicate StartsWith(s: string, p: string)
    ensures p == [] || p == s ==> StartsWith(s, p)
    ensures StartsWith(s, p) ==> OccursAt(s, p, 0)
  {
    |p| <= |s| && s[..|p|] == p
  }

  /** `s.includes(p)`: `p` starts at some position of `s`. */
  predicate Includes(s: string, p: string)
    ensures p == [] ==> Includes(s, p)
    ensures Includes(s, p) ==> |p| <= |s|
    decreases |s|
  {
    StartsWith(s, p) || (s != [] && Includes(s[1..], p))
  }

  /** `p` occurs in `s` starting at offset `i`. */
  predicate OccursAt(s: string, p: string, i: int) {
    0 <= i <= |s| - |p| && s[i..i + |p|] == p
  }

  /** `Includes` is substring containment: `p` occurs in `s` at some offset. */
  lemma {:induction false} IncludesIsSubstring(s: string, p: string)
    ensures Includes(s, p) <==> exists i :: OccursAt(s, p, i)
    decreases |s|
  {
    if s == [] {
      if Includes(s, p) {
        assert OccursAt(s, p, 0);
      }
    } else {
      IncludesIsSubstring(s[1..], p);
      if StartsWith(s, p) {
        assert OccursAt(s, p, 0);
      } else if Includes(s[1..], p) {
        var i :| OccursAt(s[1..], p, i);
        assert s[i + 1..i + 1 + |p|] == p by {
          forall n | 0 <= n < |p| ensures s[i + 1 + n] == p[n] {
            assert s[1..][i..i + |p|][n] == p[n];
          }
        }
        assert OccursAt(s, p, i + 1);
      }
      if i :| OccursAt(s, p, i) {
        if i > 0 {
          assert s[1..][i - 1..i - 1 + |p|] == p by {
            forall n | 0 <= n < |p| ensures s[1..][i - 1 + n] == p[n] {
              assert s[i..i + |p|][n] == p[n];
            }
          }
          assert OccursAt(s[1..], p, i - 1);
        } else {
          assert StartsWith(s, p);
        }
      }
    }
  }

  /** A prefix is in particular a substring. */
  lemma StartsWithIncludes(s: string, p: string)
    requires StartsWith(s, p)
    ensures Includes(s, p)
  {
  }

  /** `lines.some((l) => l.includes(k))`. */
  predicate SomeLineIncludes(lines: seq<string>, k: string)
    ensures lines == [] ==> !SomeLineIncludes(lines, k)
  {
    exists i :: 0 <= i < |lines| && Includes(lines[i], k)
  }

  /** `arr.slice(0, end)`: a negative end counts back from the length. */
  function Slice<T>(s: seq<T>, end: int): (r: seq<T>)
    ensures |r| <= |s| && r == s[..|r|]
    ensures 0 <= end ==> |r| == if end < |s| then end else |s|
    ensures end < 0 ==> |r| == if |s| + end < 0 then 0 else |s| + end
  {
    if end < 0 then (if |s| + end < 0 then [] else s[..|s| + end])
    else if end < |s| then s[..end]
    else s
  }

  // ---------------------------------------------------------------------
  // The three match tiers

  /** Tier 1: the name starts with the keyword. */
  predicate IsPrefixMatch(s: Station, k: string) {
    StartsWith(s.name, k)
  }

  /** Tier 2: the name contains the keyword but does not start with it. */
  predicate IsPartialMatch(s: Station, k: string) {
    !StartsWith(s.name, k) && Includes(s.name, k)
  }

  /** Tier 3: the name does not contain the keyword but a served line does. */
  predicate IsLineMatch(s: Station, k: string) {
    !Includes(s.name, k) && SomeLineIncludes(s.lines, k)
  }

  /** The tier a station falls in for keyword `k`, or 0 when it does not match. */
  function Tier(s: Station, k: string): int {
    if IsPrefixMatch(s, k) then 1
    else if IsPartialMatch(s, k) then 2
    else if IsLineMatch(s, k) then 3
    else 0
  }

  /** No station is in two tiers, and a station matches (its name or one of
      its lines contains the keyword) exactly when it is in one. */
  lemma TiersPartitionMatches(s: Station, k: string)
    ensures !(IsPrefixMatch(s, k) && IsPartialMatch(s, k))
    ensures !(IsPrefixMatch(s, k) && IsLineMatch(s, k))
    ensures !(IsPartialMatch(s, k) && IsLineMatch(s, k))
    ensures Tier(s, k) != 0 <==> Includes(s.name, k) || SomeLineIncludes(s.lines, k)
  {
    if IsPrefixMatch(s, k) {
      StartsWithIncludes(s.name, k);
    }
  }

  /** The `filter` callbacks of the three tiers. */
  function PrefixTest(k: string): Station -> bool {
    s => IsPrefixMatch(s, k)
  }

  function PartialTest(k: string): Station -> bool {
    s => IsPartialMatch(s, k)
  }

  function LineTest(k: string): Station -> bool {
    s => IsLineMatch(s, k)
  }

  /** `searchStations` over a given table: trim the keyword, rank the matches
      by tier, truncate to `limit`. */
  function SearchIn(table: seq<Station>, keyword: string, limit: int): (r: seq<Station>)
    ensures AllWhitespace(keyword) ==> r == []
    ensures 0 <= limit ==> |r| <= limit
  {
    if Trim(keyword) == [] then []
    else
      var k := Trim(keyword);
      var prefixMatches := Filter(table, PrefixTest(k));
      var partialMatches := Filter(table, PartialTest(k));
      var lineMatches := Filter(table, LineTest(k));
      Slice(prefixMatches + partialMatches + lineMatches, limit)
  }

  /** `searchStations(keyword, limit = 8)` over the directory. */
  function SearchStations(keyword: string, limit: Option<int>): (r: seq<Station>)
    ensures 0 <= limit.GetOr(DEFAULT_LIMIT) ==> |r| <= limit.GetOr(DEFAULT_LIMIT)
    ensures limit.None? ==> |r| <= 8
    ensures AllWhitespace(keyword) ==> r == []
  {
    SearchIn(STATIONS, keyword, limit.GetOr(DEFAULT_LIMIT))
  }

  // ---------------------------------------------------------------------
  // Properties of the search

  /** Surrounding whitespace never changes the suggestions. */
  lemma SearchIgnoresSurroundingWhitespace(table: seq<Station>, w1: string, k: string, w2: string, limit: int)
    requires AllWhitespace(w1) && AllWhitespace(w2)
    ensures SearchIn(table, w1 + k + w2, limit) == SearchIn(table, k, limit)
  {
    TrimIgnoresSurroundingWhitespace(w1, k, w2);
  }

  /** `Tier` as a function value. */
  function TierOf(k: string): Station -> int {
    s => Tier(s, k)
  }

  /** Each callback selects exactly the stations of its tier. */
  lemma TestsSelectTiers(k: string)
    ensures forall x ::
      && (PrefixTest(k)(x) <==> TierOf(k)(x) == 1)
      && (PartialTest(k)(x) <==> TierOf(k)(x) == 2)
      && (LineTest(k)(x) <==> TierOf(k)(x) == 3)
  {
    forall x: Station
      ensures PrefixTest(k)(x) <==> TierOf(k)(x) == 1
      ensures PartialTest(k)(x) <==> TierOf(k)(x) == 2
      ensures LineTest(k)(x) <==> TierOf(k)(x) == 3
    {
      TiersPartitionMatches(x, k);
    }
  }

  /** The table positions of all matches, tier by tier. */
  function RankedIndices(table: seq<Station>, k: string): seq<int> {
    RankIndices(table, PrefixTest(k), PartialTest(k), LineTest(k))
  }

  /** The table positions of the suggestions `SearchIn` returns. */
  function ResultIndices(table: seq<Station>, keyword: string, limit: int): seq<int> {
    if Trim(keyword) == [] then [] else Slice(RankedIndices(table, Trim(keyword)), limit)
  }

  /** Before truncation: each match is the table entry at its recorded
      position, of a matching tier. */
  lemma RankedEntries(table: seq<Station>, k: string)
    ensures var m := Filter(table, PrefixTest(k)) + Filter(table, PartialTest(k)) + Filter(table, LineTest(k));
      var idx := RankedIndices(table, k);
      && |idx| == |m|
      && (forall j :: 0 <= j < |idx| ==>
            0 <= idx[j] < |table| && m[j] == table[idx[j]] && Tier(table[idx[j]], k) != 0)
  {
    TestsSelectTiers(k);
    RankEntries(table, PrefixTest(k), PartialTest(k), LineTest(k), TierOf(k));
    var idx := RankedIndices(table, k);
    forall j | 0 <= j < |idx| ensures Tier(table[idx[j]], k) != 0 {
      assert 1 <= TierOf(k)(table[idx[j]]) <= 3;
    }
  }

  /** Before truncation: matches come tier by tier, in table order within a
      tier. */
  lemma RankedOrder(table: seq<Station>, k: string)
    ensures var idx := RankedIndices(table, k);
      forall j :: 0 <= j < |idx| ==> 0 <= idx[j] < |table|
    ensures var idx := RankedIndices(table, k);
      forall j, j' :: 0 <= j < j' < |idx| ==>
        Tier(table[idx[j]], k) < Tier(table[idx[j']], k)
        || (Tier(table[idx[j]], k) == Tier(table[idx[j']], k) && idx[j] < idx[j'])
  {
    TestsSelectTiers(k);
    RankOrder(table, PrefixTest(k), PartialTest(k), LineTest(k), TierOf(k));
    var idx := RankedIndices(table, k);
    RankEntries(table, PrefixTest(k), PartialTest(k), LineTest(k), TierOf(k));
    forall j, j' | 0 <= j < j' < |idx|
      ensures Tier(table[idx[j]], k) < Tier(table[idx[j']], k)
        || (Tier(table[idx[j]], k) == Tier(table[idx[j']], k) && idx[j] < idx[j'])
    {
      assert TierOf(k)(table[idx[j]]) == Tier(table[idx[j]], k);
      assert TierOf(k)(table[idx[j']]) == Tier(table[idx[j']], k);
    }
  }

  /** Before truncation: every matching table entry is listed, and the list is
      no longer than the table. */
  lemma RankedComplete(table: seq<Station>, k: string)
    ensures var idx := RankedIndices(table, k);
      && |idx| <= |table|
      && (forall i :: 0 <= i < |table| && Tier(table[i], k) != 0 ==> i in idx)
  {
    TestsSelectTiers(k);
    RankComplete(table, PrefixTest(k), PartialTest(k), LineTest(k), TierOf(k));
    forall i | 0 <= i < |table| && Tier(table[i], k) != 0
      ensures 1 <= TierOf(k)(table[i]) <= 3
    {
    }
  }

  /** The ranking facts of a match list and its positions survive truncation. */
  lemma {:induction false} SliceKeepsRanking(table: seq<Station>, k: string, m: seq<Station>, idx: seq<int>, limit: int)
    requires |idx| == |m|
    requires forall j :: 0 <= j < |idx| ==>
      0 <= idx[j] < |table| && m[j] == table[idx[j]] && Tier(table[idx[j]], k) != 0
    requires forall j, j' :: 0 <= j < j' < |idx| ==>
      Tier(table[idx[j]], k) < Tier(table[idx[j']], k)
      || (Tier(table[idx[j]], k) == Tier(table[idx[j']], k) && idx[j] < idx[j'])
    ensures var r, ri := Slice(m, limit), Slice(idx, limit);
      && |ri| == |r|
      && (forall j :: 0 <= j < |ri| ==>
            0 <= ri[j] < |table| && r[j] == table[ri[j]] && Tier(r[j], k) != 0)
      && (forall j, j' :: 0 <= j < j' < |ri| ==>
            Tier(r[j], k) < Tier(r[j'], k) || (Tier(r[j], k) == Tier(r[j'], k) && ri[j] < ri[j']))
  {
    var r, ri := Slice(m, limit), Slice(idx, limit);
    assert forall j :: 0 <= j < |ri| ==> ri[j] == idx[j] && r[j] == m[j];
  }

  /** The suggestions are table entries, ranked first by tier (prefix, then
      substring, then line name) and then by table order, so no table entry
      is suggested twice. */
  lemma {:induction false} SearchResultRanked(table: seq<Station>, keyword: string, limit: int)
    ensures var r := SearchIn(table, keyword, limit);
      var idx := ResultIndices(table, keyword, limit);
      var k := Trim(keyword);
      && |idx| == |r|
      && (forall j :: 0 <= j < |idx| ==>
            0 <= idx[j] < |table| && r[j] == table[idx[j]] && Tier(r[j], k) != 0)
      && (forall j, j' :: 0 <= j < j' < |idx| ==>
            Tier(r[j], k) < Tier(r[j'], k) || (Tier(r[j], k) == Tier(r[j'], k) && idx[j] < idx[j']))
      && (forall j, j' :: 0 <= j < j' < |idx| ==> idx[j] != idx[j'])
  {
    var k := Trim(keyword);
    if k != [] {
      RankedEntries(table, k);
      RankedOrder(table, k);
      var m := Filter(table, PrefixTest(k)) + Filter(table, PartialTest(k)) + Filter(table, LineTest(k));
      var all := RankedIndices(table, k);
      SliceKeepsRanking(table, k, m, all, limit);
      assert SearchIn(table, keyword, limit) == Slice(m, limit);
      assert ResultIndices(table, keyword, limit) == Slice(all, limit);
    }
  }

  /** With a limit of at least the table size, every station whose name or
      one of whose lines contains the keyword is suggested. */
  lemma {:induction false} SearchResultComplete(table: seq<Station>, keyword: string, limit: int)
    requires limit >= |table|
    ensures var k := Trim(keyword);
      k != [] ==> forall i :: 0 <= i < |table| && Tier(table[i], k) != 0 ==> i in ResultIndices(table, keyword, limit)
  {
    var k := Trim(keyword);
    if k != [] {
      RankedComplete(table, k);
      assert ResultIndices(table, keyword, limit) == RankedIndices(table, k);
    }
  }

  /** Every suggestion has the trimmed keyword in its name or in the name of
      one of its lines. */
  lemma SuggestionsMatch(table: seq<Station>, keyword: string, limit: int)
    ensures var k := Trim(keyword);
      forall s :: s in SearchIn(table, keyword, limit) ==>
        s in table && (Includes(s.name, k) || SomeLineIncludes(s.lines, k))
  {
    var r := SearchIn(table, keyword, limit);
    SearchResultRanked(table, keyword, limit);
    forall s | s in r
      ensures s in table && (Includes(s.name, Trim(keyword)) || SomeLineIncludes(s.lines, Trim(keyword)))
    {
      var j :| 0 <= j < |r| && r[j] == s;
      TiersPartitionMatches(s, Trim(keyword));
    }
  }

  /** Every prefix match is listed before every other suggestion. */
  lemma PrefixMatchesComeFirst(table: seq<Station>, keyword: string, limit: int)
    ensures var r := SearchIn(table, keyword, limit);
      forall j, j' :: 0 <= j < j' < |r| && IsPrefixMatch(r[j'], Trim(keyword)) ==>
        IsPrefixMatch(r[j], Trim(keyword))
  {
    var r := SearchIn(table, keyword, limit);
    var k := Trim(keyword);
    SearchResultRanked(table, keyword, limit);
    forall j, j' | 0 <= j < j' < |r| && IsPrefixMatch(r[j'], k)
      ensures IsPrefixMatch(r[j], k)
    {
      assert Tier(r[j'], k) == 1;
      assert Tier(r[j], k) == 1;
    }
  }

  /** A smaller limit keeps the first suggestions of a larger one. */
  lemma LimitTruncatesRanking(table: seq<Station>, keyword: string, l1: int, l2: int)
    requires 0 <= l1 <= l2
    ensures var r1 := SearchIn(table, keyword, l1);
      var r2 := SearchIn(table, keyword, l2);
      |r1| <= |r2| && r1 == r2[..|r1|]
  {
  }

  lemma ShinjukuTrims()
    ensures Trim("新宿") == "新宿"
  {
    var k := "新宿";
    assert !IsJsWhitespace(k[0]) && !IsJsWhitespace(k[1]);
    assert k[0..2] == k;
    TrimUnique(k, k, 0);
  }

  lemma ShinjukuTiers()
    ensures 4 < |STATIONS| && STATIONS[4].name == "新宿" && IsPrefixMatch(STATIONS[4], "新宿")
    ensures forall i :: 0 <= i < 4 ==> !IsPrefixMatch(STATIONS[i], "新宿")
  {
    var k := "新宿";
    assert STATIONS[4].name == k;
    assert STATIONS[4].name[..2] == k;
    forall i | 0 <= i < 4 ensures !IsPrefixMatch(STATIONS[i], k) {
      assert STATIONS[i].name[0] != k[0];
    }
  }

  /** When the first prefix match in table order is entry `i`, that entry is
      the first suggestion. */
  lemma {:induction false} FirstPrefixMatchSuggestedFirst(table: seq<Station>, keyword: string, limit: int, i: int)
    requires limit >= 1 && Trim(keyword) != []
    requires 0 <= i < |table| && IsPrefixMatch(table[i], Trim(keyword))
    requires forall j :: 0 <= j < i ==> !IsPrefixMatch(table[j], Trim(keyword))
    ensures var r := SearchIn(table, keyword, limit);
      |r| > 0 && r[0] == table[i]
  {
    var k := Trim(keyword);
    FilterIndicesSpec(table, PrefixTest(k));
    var a := FilterIndices(table, PrefixTest(k));
    var f := Filter(table, PrefixTest(k));
    assert i in a;
    assert a[0] == i by {
      var p :| 0 <= p < |a| && a[p] == i;
      assert a[0] <= i;
      assert PrefixTest(k)(table[a[0]]);
    }
    assert f[0] == table[i];
    var m := f + Filter(table, PartialTest(k)) + Filter(table, LineTest(k));
    assert m[0] == f[0];
    assert SearchIn(table, keyword, limit) == Slice(m, limit);
  }

  /** Searching the directory for "新宿" suggests the station named exactly
      "新宿" first. */
  lemma ShinjukuSuggestedFirst()
    ensures var r := SearchStations("新宿", None);
      |r| > 0 && r[0] == STATIONS[4] && r[0].name == "新宿"
  {
    var k := "新宿";
    ShinjukuTrims();
    ShinjukuTiers();
    FirstPrefixMatchSuggestedFirst(STATIONS, k, DEFAULT_LIMIT, 4);
    assert SearchStations(k, None) == SearchIn(STATIONS, k, DEFAULT_LIMIT);
  }
}
