/** Detection of the dataset's date column: the first column, in file order,
    whose lower-cased name is one of the accepted date names. Lower-casing is
    modelled for ASCII letters only. */
module Columns {
  import opened Wrappers

  predicate IsUpper(c: char)
  {
    'A' <= c <= 'Z'
  }

  /** ASCII lower-casing of one character. */
  function LowerChar(c: char): (d: char)
    ensures !IsUpper(d)
    ensures !IsUpper(c) ==> d == c
    ensures IsUpper(c) ==> 'a' <= d <= 'z' && d as int - c as int == 'a' as int - 'A' as int
  {
    if IsUpper(c) then (c as int - 'A' as int + 'a' as int) as char else c
  }

  /** ASCII lower-casing of a column name. */
  function Lower(s: string): (t: string)
    ensures |t| == |s|
    ensures forall i :: 0 <= i < |s| ==> t[i] == LowerChar(s[i])
  {
    if |s| == 0 then [] else [LowerChar(s[0])] + Lower(s[1..])
  }

  /** The accepted names of a date column, compared after lower-casing. */
  const DateNames: set<string> := {"date", "datetime", "timestamp"}

  /** `a` and `b` spell the same word up to ASCII case. */
  predicate SameIgnoringCase(a: string, b: string)
  {
    |a| == |b| && forall i :: 0 <= i < |a| ==> LowerChar(a[i]) == LowerChar(b[i])
  }

  predicate HasNoUpper(w: string)
  {
    forall i :: 0 <= i < |w| ==> !IsUpper(w[i])
  }

  /** A name lower-cases to an all-lower-case word exactly when the two agree
      up to case. */
  lemma LowerIsIffSameIgnoringCase(name: string, w: string)
    requires HasNoUpper(w)
    ensures Lower(name) == w <==> SameIgnoringCase(name, w)
  {
    if SameIgnoringCase(name, w) {
      assert forall i :: 0 <= i < |w| ==> Lower(name)[i] == w[i];
    }
  }

  /** A column name qualifies as a date column exactly when it is one of the
      accepted names up to upper/lower case. */
  predicate IsDateName(name: string)
    ensures IsDateName(name) <==>
              SameIgnoringCase(name, "date") || SameIgnoringCase(name, "datetime") || SameIgnoringCase(name, "timestamp")
  {
    assert HasNoUpper("date") && HasNoUpper("datetime") && HasNoUpper("timestamp");
    LowerIsIffSameIgnoringCase(name, "date");
    LowerIsIffSameIgnoringCase(name, "datetime");
    LowerIsIffSameIgnoringCase(name, "timestamp");
    Lower(name) in DateNames
  }

  /** Index of the first date column, or None when no column qualifies. */
  function FirstDateColumn(columns: seq<string>): (r: Option<nat>)
    ensures r.Some? ==> r.value < |columns| && IsDateName(columns[r.value])
    ensures r.Some? ==> forall j :: 0 <= j < r.value ==> !IsDateName(columns[j])
    ensures r.None? <==> forall j :: 0 <= j < |columns| ==> !IsDateName(columns[j])
  {
    if |columns| == 0 then None
    else if IsDateName(columns[0]) then Some(0)
    else match FirstDateColumn(columns[1..])
      case None => None
      case Some(k) => Some(k + 1)
  }

  /** Lower-casing twice changes nothing more. */
  lemma LowerIdempotent(s: string)
    ensures Lower(Lower(s)) == Lower(s)
  {
  }

  /** Lower-casing leaves no upper-case ASCII letter behind. */
  lemma LowerHasNoUpper(s: string)
    ensures forall i :: 0 <= i < |Lower(s)| ==> !IsUpper(Lower(s)[i])
  {
  }

  function LowerAll(columns: seq<string>): (ls: seq<string>)
    ensures |ls| == |columns|
    ensures forall i :: 0 <= i < |columns| ==> ls[i] == Lower(columns[i])
  {
    if |columns| == 0 then [] else [Lower(columns[0])] + LowerAll(columns[1..])
  }

  /** The match is case-insensitive: lower-casing every column name first
      selects the same column. */
  lemma {:induction false} DetectionIgnoresCase(columns: seq<string>)
    ensures FirstDateColumn(LowerAll(columns)) == FirstDateColumn(columns)
    decreases |columns|
  {
    if |columns| != 0 {
      LowerIdempotent(columns[0]);
      assert LowerAll(columns)[1..] == LowerAll(columns[1..]);
      DetectionIgnoresCase(columns[1..]);
    }
  }

  /** A name lower-cases to `t` when each of its characters does. */
  lemma LowerMatches(s: string, t: string)
    requires |s| == |t|
    requires forall i :: 0 <= i < |s| ==> LowerChar(s[i]) == t[i]
    ensures Lower(s) == t
  {
  }

  /** Any upper/lower-case spelling of an accepted name qualifies. */
  lemma MixedCaseQualifies()
    ensures IsDateName("Date") && IsDateName("DATETIME") && IsDateName("TimeStamp")
  {
    LowerMatches("Date", "date");
    LowerMatches("DATETIME", "datetime");
    LowerMatches("TimeStamp", "timestamp");
  }

  /** A name that merely contains an accepted name does not qualify. */
  lemma LongerNamesDoNotQualify()
    ensures !IsDateName("dates") && !IsDateName("date_time")
  {
    var a := Lower("dates");
    assert |a| == 5;
    var b := Lower("date_time");
    assert |b| == 9 && b[0] == LowerChar('d') == 'd';
    assert "timestamp"[0] == 't';
  }

  /** The first qualifying column wins even when a later one is spelled
      exactly "date"; with no qualifying column there is no match. */
  lemma FirstMatchWins()
    ensures FirstDateColumn(["id", "Timestamp", "date"]) == Some(1)
    ensures FirstDateColumn(["id", "when"]) == None
  {
    var id := Lower("id");
    assert |id| == 2;
    assert !IsDateName("id");
    var w := Lower("when");
    assert |w| == 4 && w[0] == LowerChar('w') == 'w';
    assert "date"[0] == 'd';
    assert !IsDateName("when");
    assert Lower("Timestamp") == "timestamp";
    assert ["id", "Timestamp", "date"][1..] == ["Timestamp", "date"];
    assert ["id", "when"][1..] == ["when"];
    assert ["when"][1..] == [];
  }
}
