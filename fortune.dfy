/**
 * The deterministic part of the fortune endpoint (fortune.js): the string
 * hash that turns the date into a seed, the choice of the lucky tile and
 * the lucky yaku from fixed tables, the removal of Markdown code fences
 * from the generated text, the response record and the cache lifetime.
 */
module Fortune {
  import opened Js
  import opened Wrappers

  // ---------------------------------------------------------------------
  // hashCode
  // ---------------------------------------------------------------------

  function Pow31(n: nat): (r: nat)
    ensures r >= 1
  {
    if n == 0 then 1 else 31 * Pow31(n - 1)
  }

  /** The polynomial u[0]·31^(n-1) + u[1]·31^(n-2) + … + u[n-1] over the code units u, before truncation. */
  function Polynomial(u: seq<int>): int
  {
    if u == [] then 0 else u[0] * Pow31(|u| - 1) + Polynomial(u[1..])
  }

  /** The value `hashCode(s)` returns: the polynomial of s's code units, truncated to a signed 32-bit integer. */
  function StringHash(s: string): (r: int)
    ensures IsInt32(r)
  {
    ToInt32(Polynomial(CodeUnits(s)))
  }

  /** Appending a code unit multiplies the polynomial by 31 and adds the unit. */
  lemma {:induction false} PolynomialSnoc(u: seq<int>, c: int)
    ensures Polynomial(u + [c]) == 31 * Polynomial(u) + c
  {
    if u == [] {
      assert [] + [c] == [c];
      assert Polynomial([c]) == c * Pow31(0) + Polynomial([]);
    } else {
      var v := u + [c];
      assert v[1..] == u[1..] + [c];
      PolynomialSnoc(u[1..], c);
      assert |v| - 1 == |u|;
      assert Pow31(|u|) == 31 * Pow31(|u| - 1);
      calc {
        Polynomial(v);
        v[0] * Pow31(|u|) + Polynomial(u[1..] + [c]);
        u[0] * (31 * Pow31(|u| - 1)) + 31 * Polynomial(u[1..]) + c;
        31 * (u[0] * Pow31(|u| - 1) + Polynomial(u[1..])) + c;
        31 * Polynomial(u) + c;
      }
    }
  }

  /** A multiple of 2^32 times 31 is still a multiple of 2^32. */
  lemma Scale31(d: int)
    requires d % TWO_32 == 0
    ensures (31 * d) % TWO_32 == 0
  {
    var q := d / TWO_32;
    assert d == TWO_32 * q;
    assert 31 * d == TWO_32 * (31 * q);
  }

  /**
   * One turn of the loop: `((hash << 5) - hash) + char` followed by `hash & hash`
   * yields the truncation of 31·p + char when hash is the truncation of p.
   */
  lemma HashStep(hash: int, p: int, ch: int)
    requires hash == ToInt32(p)
    ensures BitAnd((ShiftLeft(hash, 5) - hash) + ch, (ShiftLeft(hash, 5) - hash) + ch) == ToInt32(31 * p + ch)
  {
    var x := (ShiftLeft(hash, 5) - hash) + ch;
    SelfAnd(x);
    ToInt32Id(hash);
    assert Pow2(5) == 32;
    var s := ShiftLeft(hash, 5);
    assert s == ToInt32(hash * 32);
    assert (s - hash * 32) % TWO_32 == 0;
    assert (hash - p) % TWO_32 == 0;
    Scale31(hash - p);
    ModSum3(s - hash * 32, 31 * (hash - p), 0);
    assert x - (31 * p + ch) == (s - hash * 32) + 31 * (hash - p) + 0;
    ToInt32Congruent(x, 31 * p + ch);
  }

  /** `hashCode`: Java's String.hashCode computed with JavaScript's 32-bit operators, one code unit at a time. */
  method HashCode(str: string) returns (hash: int)
    ensures IsInt32(hash)
    ensures hash == ToInt32(Polynomial(CodeUnits(str)))
  {
    var units := CodeUnits(str);
    hash := 0;
    var i := 0;
    while i < |units|
      invariant 0 <= i <= |units|
      invariant IsInt32(hash)
      invariant hash == ToInt32(Polynomial(units[..i]))
    {
      var ch := units[i];
      HashStep(hash, Polynomial(units[..i]), ch);
      PolynomialSnoc(units[..i], ch);
      assert units[..i + 1] == units[..i] + [ch];
      hash := (ShiftLeft(hash, 5) - hash) + ch;
      hash := BitAnd(hash, hash);
      i := i + 1;
    }
    assert units[..i] == units;
  }

  /** The hash of the empty string is 0: the loop body never runs. */
  lemma HashOfEmpty()
    ensures StringHash("") == 0
  {
  }

  // ---------------------------------------------------------------------
  // The lucky tile and the lucky yaku
  // ---------------------------------------------------------------------

  /** The 34 kinds of mahjong tile: characters, bamboos, circles, winds and dragons. */
  const Tiles: seq<string> := [
    "1만", "2만", "3만", "4만", "5만", "6만", "7만", "8만", "9만",
    "1삭", "2삭", "3삭", "4삭", "5삭", "6삭", "7삭", "8삭", "9삭",
    "1통", "2통", "3통", "4통", "5통", "6통", "7통", "8통", "9통",
    "동", "남", "서", "북", "백", "발", "중"
  ]

  /** The 17 scoring hands (yaku) the fortune may recommend. */
  const Yakus: seq<string> := [
    "리치", "탕야오", "핑후", "이페코", "삼색동순", "일기통관",
    "혼일색", "청일색", "또이또이", "산안커", "삼색동각",
    "치또이츠", "소삼원", "혼노두", "청노두", "산깡쯔", "역패"
  ]

  /** `Math.abs(seed) % tiles.length`: the index into the tile table, always in bounds. */
  function TileIndex(seed: int): (i: nat)
    ensures i < |Tiles| == 34
    ensures (Abs(seed) - i) % 34 == 0
  {
    Rem(Abs(seed), |Tiles|)
  }

  /** `Math.abs(seed * 2) % yakus.length`: the index into the yaku table, always in bounds. */
  function YakuIndex(seed: int): (i: nat)
    ensures i < |Yakus| == 17
    ensures (Abs(2 * seed) - i) % 17 == 0
  {
    Rem(Abs(seed * 2), |Yakus|)
  }

  function LuckyTile(dateString: string): (t: string)
    ensures t in Tiles
  {
    Tiles[TileIndex(StringHash(dateString))]
  }

  function LuckyYaku(dateString: string): (y: string)
    ensures y in Yakus
  {
    Yakus[YakuIndex(StringHash(dateString))]
  }

  // Two worked dates; the second hash is negative, so `Math.abs` matters.

  lemma ExampleOctoberPolynomial(u: seq<int>)
    requires u == [50, 48, 50, 54, 45, 49, 48, 45, 49, 52]
    ensures Polynomial(u) == 1364344768774150
  {
    assert Polynomial(u[..0]) == 0;
    PolynomialSnoc(u[..0], u[0]);
    assert u[..0] + [u[0]] == u[..1];
    assert Polynomial(u[..1]) == 50;
    PolynomialSnoc(u[..1], u[1]);
    assert u[..1] + [u[1]] == u[..2];
    assert Polynomial(u[..2]) == 1598;
    PolynomialSnoc(u[..2], u[2]);
    assert u[..2] + [u[2]] == u[..3];
    assert Polynomial(u[..3]) == 49588;
    PolynomialSnoc(u[..3], u[3]);
    assert u[..3] + [u[3]] == u[..4];
    assert Polynomial(u[..4]) == 1537282;
    PolynomialSnoc(u[..4], u[4]);
    assert u[..4] + [u[4]] == u[..5];
    assert Polynomial(u[..5]) == 47655787;
    PolynomialSnoc(u[..5], u[5]);
    assert u[..5] + [u[5]] == u[..6];
    assert Polynomial(u[..6]) == 1477329446;
    PolynomialSnoc(u[..6], u[6]);
    assert u[..6] + [u[6]] == u[..7];
    assert Polynomial(u[..7]) == 45797212874;
    PolynomialSnoc(u[..7], u[7]);
    assert u[..7] + [u[7]] == u[..8];
    assert Polynomial(u[..8]) == 1419713599139;
    PolynomialSnoc(u[..8], u[8]);
    assert u[..8] + [u[8]] == u[..9];
    assert Polynomial(u[..9]) == 44011121573358;
    PolynomialSnoc(u[..9], u[9]);
    assert u[..9] + [u[9]] == u[..10];
    assert Polynomial(u[..10]) == 1364344768774150;
    assert u[..10] == u;
  }

  lemma ExampleOctoberUnits(s: string)
    requires s == "2026-10-14"
    ensures CodeUnits(s) == [50, 48, 50, 54, 45, 49, 48, 45, 49, 52]
  {
    BmpCodeUnits(s);
  }

  /** The date string "2026-10-14" hashes to 1162559494, which selects the tile at index 10 and the yaku at index 3. */
  lemma ExampleOctober(s: string)
    requires s == "2026-10-14"
    ensures StringHash(s) == 1162559494
    ensures LuckyTile(s) == "2삭"
    ensures LuckyYaku(s) == "이페코"
  {
    ExampleOctoberUnits(s);
    ExampleOctoberPolynomial(CodeUnits(s));
    assert ToInt32(1364344768774150) == 1162559494;
    assert TileIndex(1162559494) == 10;
    assert YakuIndex(1162559494) == 3;
  }

  lemma ExampleNewYearPolynomial(u: seq<int>)
    requires u == [50, 48, 50, 52, 45, 49, 45, 49]
    ensures Polynomial(u) == 1419711752008
  {
    assert Polynomial(u[..0]) == 0;
    PolynomialSnoc(u[..0], u[0]);
    assert u[..0] + [u[0]] == u[..1];
    assert Polynomial(u[..1]) == 50;
    PolynomialSnoc(u[..1], u[1]);
    assert u[..1] + [u[1]] == u[..2];
    assert Polynomial(u[..2]) == 1598;
    PolynomialSnoc(u[..2], u[2]);
    assert u[..2] + [u[2]] == u[..3];
    assert Polynomial(u[..3]) == 49588;
    PolynomialSnoc(u[..3], u[3]);
    assert u[..3] + [u[3]] == u[..4];
    assert Polynomial(u[..4]) == 1537280;
    PolynomialSnoc(u[..4], u[4]);
    assert u[..4] + [u[4]] == u[..5];
    assert Polynomial(u[..5]) == 47655725;
    PolynomialSnoc(u[..5], u[5]);
    assert u[..5] + [u[5]] == u[..6];
    assert Polynomial(u[..6]) == 1477327524;
    PolynomialSnoc(u[..6], u[6]);
    assert u[..6] + [u[6]] == u[..7];
    assert Polynomial(u[..7]) == 45797153289;
    PolynomialSnoc(u[..7], u[7]);
    assert u[..7] + [u[7]] == u[..8];
    assert Polynomial(u[..8]) == 1419711752008;
    assert u[..8] == u;
  }

  lemma ExampleNewYearUnits(s: string)
    requires s == "2024-1-1"
    ensures CodeUnits(s) == [50, 48, 50, 52, 45, 49, 45, 49]
  {
    BmpCodeUnits(s);
  }

  /** The date string "2024-1-1" hashes to -1922422968, which selects the tile at index 0 and the yaku at index 0. */
  lemma ExampleNewYear(s: string)
    requires s == "2024-1-1"
    ensures StringHash(s) == -1922422968
    ensures LuckyTile(s) == "1만"
    ensures LuckyYaku(s) == "리치"
  {
    ExampleNewYearUnits(s);
    ExampleNewYearPolynomial(CodeUnits(s));
    assert ToInt32(1419711752008) == -1922422968;
    assert TileIndex(-1922422968) == 0;
    assert YakuIndex(-1922422968) == 0;
  }

  // ---------------------------------------------------------------------
  // Code fences around the generated text
  // ---------------------------------------------------------------------

  /**
   * `s.replace(/<tag>\n?/g, '')`: scanning from the left, every occurrence of
   * tag, together with one line feed right after it, is removed; the scan
   * resumes after the removed text.
   */
  function RemoveFences(s: string, tag: string): (r: string)
    requires tag != []
    ensures |r| <= |s|
    ensures forall c :: c in r ==> c in s
    decreases |s|
  {
    if s == [] then []
    else if |tag| <= |s| && s[..|tag|] == tag then
      var rest := s[|tag|..];
      RemoveFences(if rest != [] && rest[0] == '\n' then rest[1..] else rest, tag)
    else
      [s[0]] + RemoveFences(s[1..], tag)
  }

  /** The cleanup before parsing: trim, drop "```json" and "```" fences (each with one following line feed), trim again. */
  function StripFences(generatedText: string): (r: string)
    ensures IsTrimmed(r)
    ensures |r| <= |generatedText|
  {
    var jsonText := Trim(generatedText);
    Trim(RemoveFences(RemoveFences(jsonText, "```json"), "```"))
  }

  predicate NoBacktick(s: string)
  {
    forall i :: 0 <= i < |s| ==> s[i] != '`'
  }

  /** Text without a backtick passes a fence removal through unchanged. */
  lemma {:induction false} RemoveFencesPlain(s: string, tag: string)
    requires tag != [] && tag[0] == '`'
    requires NoBacktick(s)
    ensures RemoveFences(s, tag) == s
  {
    if s != [] {
      RemoveFencesPlain(s[1..], tag);
      assert [s[0]] + s[1..] == s;
    }
  }

  /** A backtick-free prefix is copied through, and the removal continues on what follows it. */
  lemma {:induction false} RemoveFencesPrefix(p: string, s: string, tag: string)
    requires tag != [] && tag[0] == '`'
    requires NoBacktick(p)
    ensures RemoveFences(p + s, tag) == p + RemoveFences(s, tag)
  {
    if p != [] {
      assert (p + s)[0] == p[0];
      assert (p + s)[1..] == p[1..] + s;
      RemoveFencesPrefix(p[1..], s, tag);
      assert [p[0]] + (p[1..] + RemoveFences(s, tag)) == p + RemoveFences(s, tag);
    } else {
      assert p + s == s;
    }
  }

  lemma TrimKeepsNoBacktick(s: string)
    requires NoBacktick(s)
    ensures NoBacktick(Trim(s))
  {
    var t := TrimStart(s);
    assert NoBacktick(t) by {
      forall i | 0 <= i < |t| ensures t[i] != '`' {
        assert t[i] == s[|s| - |t| + i];
      }
    }
  }

  /** Text without backticks is only trimmed. */
  lemma StripPlainText(s: string)
    requires NoBacktick(s)
    ensures StripFences(s) == Trim(s)
  {
    var t := Trim(s);
    TrimKeepsNoBacktick(s);
    RemoveFencesPlain(t, "```json");
    RemoveFencesPlain(t, "```");
    TrimIdempotent(s);
  }

  /** The "```json" pass removes the opening fence and its line feed, and leaves the closing fence. */
  lemma OpeningFenceRemoved(body: string)
    requires NoBacktick(body)
    ensures RemoveFences("```json\n" + body + "```", "```json") == body + "```"
  {
    var block := "```json\n" + body + "```";
    var rest := block[7..];
    assert block[..7] == "```json";
    assert rest == "\n" + (body + "```");
    assert rest[1..] == body + "```";
    RemoveFencesPrefix(body, "```", "```json");
    assert RemoveFences("```", "```json") == "```";
  }

  /** The "```" pass removes the closing fence. */
  lemma ClosingFenceRemoved(body: string)
    requires NoBacktick(body)
    ensures RemoveFences(body + "```", "```") == body
  {
    RemoveFencesPrefix(body, "```", "```");
    assert RemoveFences("```", "```") == [];
    assert body + [] == body;
  }

  /** A reply wrapped as "```json", line feed, body, "```" (with any white space around it) yields the trimmed body, when the body has no backtick. */
  lemma StripFencedBlock(w1: string, body: string, w2: string)
    requires AllSpace(w1) && AllSpace(w2)
    requires NoBacktick(body)
    ensures StripFences(w1 + "```json\n" + body + "```" + w2) == Trim(body)
  {
    var block := "```json\n" + body + "```";
    assert w1 + "```json\n" + body + "```" + w2 == w1 + block + w2;
    assert block[0] == '`' && block[|block| - 1] == '`';
    TrimPadded(w1, block, w2);
    OpeningFenceRemoved(body);
    ClosingFenceRemoved(body);
  }

  // ---------------------------------------------------------------------
  // The response
  // ---------------------------------------------------------------------

  /** The two fields taken from the object the generated JSON text parses to; a missing field is None (undefined). */
  datatype Generated = Generated(fortune: Option<string>, tip: Option<string>)

  /** The response body: the fortune and tip from the generated text, the day's tile and yaku, and the date string. */
  datatype FortuneResult = FortuneResult(
    fortune: Option<string>,
    luckyTile: string,
    luckyYaku: string,
    tip: Option<string>,
    date: string)

  function BuildResult(dateString: string, generated: Generated): (r: FortuneResult)
    ensures r.date == dateString
    ensures r.luckyTile == LuckyTile(dateString) && r.luckyTile in Tiles
    ensures r.luckyYaku == LuckyYaku(dateString) && r.luckyYaku in Yakus
    ensures r.fortune == generated.fortune && r.tip == generated.tip
  {
    FortuneResult(generated.fortune, LuckyTile(dateString), LuckyYaku(dateString), generated.tip, dateString)
  }

  /** Two responses for the same date string carry the same tile, yaku and date, whatever text was generated. */
  lemma SameDaySameLuck(dateString: string, g1: Generated, g2: Generated)
    ensures BuildResult(dateString, g1).luckyTile == BuildResult(dateString, g2).luckyTile
    ensures BuildResult(dateString, g1).luckyYaku == BuildResult(dateString, g2).luckyYaku
    ensures BuildResult(dateString, g1).date == BuildResult(dateString, g2).date
  {
  }

  /** `Math.floor((tomorrow - today) / 1000)`: whole seconds from now (ms) to the next local midnight (ms). */
  function CacheSeconds(nowMs: int, midnightMs: int): (r: int)
    ensures r * 1000 <= midnightMs - nowMs < r * 1000 + 1000
  {
    (midnightMs - nowMs) / 1000
  }

  /** When midnight is ahead by at most a day, the lifetime is between 0 and 86400 seconds. */
  lemma CacheSecondsBounds(nowMs: int, midnightMs: int)
    requires nowMs < midnightMs <= nowMs + 86_400_000
    ensures 0 <= CacheSeconds(nowMs, midnightMs) <= 86_400
  {
  }
}
