/**
 * The local heuristic analyser, `simple_local_analysis`: a short summary of a
 * fetched record with a follower-count warning.
 *
 * Python raises when it slices a bio that is a non-zero integer (`bio[:300]`
 * on an `int`); `Outcome` keeps that case as `Raised` rather than excluding
 * it. Every other record gives a text.
 */
module LocalAnalysis {
  import opened Wrappers
  import opened Text
  import opened Decimal
  import opened Profile

  /** A Python function's result: a returned string or an exception. */
  datatype Outcome = Returned(text: string) | Raised(reason: string)

  const NoProfileMessage: string :=
    "Impossible d'extraire le profil. Voici quelques \U{E9}tapes : v\U{E9}rifier le lien, ou r\U{E9}essayer plus tard."
  const ErrorPrefix: string := "Erreur lors de la r\U{E9}cup\U{E9}ration : "

  const NoName: Value := Str("Nom non trouv\U{E9}")
  const NoBio: Value := Str("Pas de bio publique")
  const NoFollowers: Value := Str("Inconnu")
  const NoAvatar: Value := Str("Aucun avatar trouv\U{E9}")

  const NameLabel: string := "**Profil** : "
  const BioLabel: string := "**Bio (extrait)** : "
  const FollowersLabel: string := "**Followers** : "
  const AvatarLabel: string := "**Avatar** : "

  const LowFollowersLine: string :=
    "\U{26A0}\U{FE0F} Compte avec peu de followers \U{2014} prudence si tu veux v\U{E9}rifier l'authenticit\U{E9}."
  const EnoughFollowersLine: string := "\U{2705} Compte avec un nombre de followers acceptable."

  /** The heuristic's threshold: fewer followers than this draw the warning. */
  const FollowerThreshold: int := 50

  /** How many characters of the bio are shown (`bio[:300]`). */
  const BioLimit: nat := 300

  const SliceIntError: string := "TypeError: 'int' object is not subscriptable"

  /** `s[:n]`. */
  function Truncate(s: string, n: nat): (r: string)
    ensures r <= s && |r| <= n
    ensures |s| <= n ==> r == s
    ensures |s| > n ==> |r| == n
  {
    if |s| <= n then s else s[..n]
  }

  /**
   * The number the heuristic reads: a string is reduced to its digits when it
   * has any (`"1.5"` reads as 15), an integer is taken as it is, and anything
   * else gives no number.
   */
  function FollowerNumber(followers: Value): (n: Option<int>)
    ensures followers.Str? ==> (n.Some? <==> HasDigit(followers.s))
    ensures followers.Str? && n.Some? ==> n.value >= 0
    ensures followers.Str? && HasDigit(followers.s) ==> n == Some(DigitsValue(KeepDigits(followers.s)))
    ensures followers.Int? ==> n == Some(followers.i)
    ensures followers.Null? ==> n.None?
  {
    match followers
    case Str(s) => if HasDigit(s) then Some(DigitsValue(KeepDigits(s))) else None
    case Int(i) => Some(i)
    case Null => None
  }

  /** The optional last line: a warning below the threshold, an approval from it on, nothing without a number. */
  function HeuristicLines(followers: Value): (lines: seq<string>)
    ensures |lines| <= 1
    ensures |lines| == 1 <==> FollowerNumber(followers).Some?
    ensures lines == [LowFollowersLine] <==> FollowerNumber(followers).Some? && FollowerNumber(followers).value < FollowerThreshold
    ensures lines == [EnoughFollowersLine] <==> FollowerNumber(followers).Some? && FollowerNumber(followers).value >= FollowerThreshold
  {
    match FollowerNumber(followers)
    case None => []
    case Some(n) => if n < FollowerThreshold then [LowFollowersLine] else [EnoughFollowersLine]
  }

  /** The bio `simple_local_analysis` shows: `profile_info.get("bio") or "Pas de bio publique"`. */
  function ShownBio(record: Record): (v: Value)
    ensures Truthy(Get(record, Bio)) ==> v == record[Bio]
    ensures !Truthy(Get(record, Bio)) ==> v == NoBio
  {
    Or(Get(record, Bio), NoBio)
  }

  /** The four labelled lines and the optional heuristic line of a record without a truthy `error`. */
  function SummaryLines(record: Record): (lines: seq<string>)
    requires ShownBio(record).Str?
    ensures 4 <= |lines| <= 5
    ensures lines[0] == NameLabel + Show(Or(Get(record, DisplayName), NoName))
    ensures lines[1] == BioLabel + Truncate(ShownBio(record).s, BioLimit)
    ensures lines[2] == FollowersLabel + Show(Or(Get(record, Followers), NoFollowers))
    ensures lines[3] == AvatarLabel + Show(Or(Get(record, AvatarUrl), NoAvatar))
    ensures |lines[1]| <= |BioLabel| + BioLimit
    ensures lines[4..] == HeuristicLines(Or(Get(record, Followers), NoFollowers))
  {
    var followers := Or(Get(record, Followers), NoFollowers);
    [NameLabel + Show(Or(Get(record, DisplayName), NoName)),
     BioLabel + Truncate(ShownBio(record).s, BioLimit),
     FollowersLabel + Show(followers),
     AvatarLabel + Show(Or(Get(record, AvatarUrl), NoAvatar))]
    + HeuristicLines(followers)
  }

  /**
   * `simple_local_analysis(profile_info, link)`; `link` is not used. It
   * raises only when the bio is a non-zero integer; a missing or empty record
   * gives the fixed message and a truthy `error` gives that error.
   */
  function SimpleLocalAnalysis(info: Option<Record>, link: string): (r: Outcome)
    ensures r.Raised? <==> info.Some? && |info.value| > 0 && !Truthy(Get(info.value, Error)) && ShownBio(info.value).Int?
    ensures r.Returned? ==> |r.text| > 0
    ensures (info.None? || |info.value| == 0) ==> r == Returned(NoProfileMessage)
    ensures info.Some? && |info.value| > 0 && Truthy(Get(info.value, Error)) ==>
              r == Returned(ErrorPrefix + Show(info.value[Error]))
    ensures info.Some? && |info.value| > 0 && !Truthy(Get(info.value, Error)) && ShownBio(info.value).Str? ==>
              r == Returned(JoinLines(SummaryLines(info.value)))
  {
    if info.None? || |info.value| == 0 then Returned(NoProfileMessage)
    else
      var record := info.value;
      if Truthy(Get(record, Error)) then Returned(ErrorPrefix + Show(record[Error]))
      else if ShownBio(record).Int? then Raised(SliceIntError)
      else Returned(JoinLines(SummaryLines(record)))
  }

  /** A follower count given as decimal text reads as the same number as the integer itself. */
  lemma TextCountReadsAsInteger(n: nat)
    ensures FollowerNumber(Str(NatText(n))) == FollowerNumber(Int(n))
  {
    var s := NatText(n);
    assert IsDigit(s[0]);
  }

  /** Sample counts: `"30"` draws the warning. */
  lemma LowSample()
    ensures HeuristicLines(Str("30")) == [LowFollowersLine]
  {
    assert IsDigit("30"[0]);
    assert KeepDigits("30") == "30";
    assert "30"[..1] == "3";
    assert DigitsValue("30") == 30;
  }

  /** `"500"` draws the approval. */
  lemma EnoughSample()
    ensures HeuristicLines(Str("500")) == [EnoughFollowersLine]
  {
    assert IsDigit("500"[0]);
    assert KeepDigits("500") == "500";
    assert "500"[..2] == "50" && "50"[..1] == "5";
  }

  /** A count with no digit, such as the default `"Inconnu"`, adds no heuristic line. */
  lemma NoDigitsNoLine(s: string)
    requires !HasDigit(s)
    ensures HeuristicLines(Str(s)) == []
  {
  }

  /** `"1.5"` is reduced to its digits and reads as 15. */
  lemma DecimalPointSample()
    ensures FollowerNumber(Str("1.5")) == Some(15)
  {
    assert IsDigit("1.5"[0]);
    assert KeepDigits("1.5") == "15";
    assert "15"[..1] == "1";
    assert DigitsValue("15") == 15;
  }

  /** `"1,234"`: the separator is dropped and the count reads as 1234. */
  lemma ThousandsSample()
    ensures FollowerNumber(Str("1,234")) == Some(1234)
  {
    assert IsDigit("1,234"[0]);
    ThousandsDigits();
  }

  /**
   * A zero follower count from the JSON endpoint is falsy, so the analysis
   * shows `Inconnu` and adds no heuristic line, while the text `"0"` is
   * truthy and draws the warning.
   */
  lemma ZeroFollowers(record: Record)
    requires Get(record, Followers) == Int(0)
    ensures HeuristicLines(Or(Get(record, Followers), NoFollowers)) == []
    ensures HeuristicLines(Or(Str("0"), NoFollowers)) == [LowFollowersLine]
  {
    assert !HasDigit("Inconnu") by {
      forall k | 0 <= k < |"Inconnu"| ensures !IsDigit("Inconnu"[k]) { }
    }
    assert IsDigit("0"[0]);
  }

  /** A record whose bio is absent or text always gets a summary: the analysis never raises on it. */
  lemma TextBioNeverRaises(info: Record, link: string)
    requires Get(info, Bio).Null? || Get(info, Bio).Str?
    ensures SimpleLocalAnalysis(Some(info), link).Returned?
  {
  }
}
