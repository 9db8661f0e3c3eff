/**
 * The display helpers of the transaction card (components/transaction-card.tsx):
 * avatar initials, the status colour classes, the participant phrase, the
 * category label and the status label.
 */
module TransactionCard {
  import opened Common
  import opened Text

  // ---------------------------------------------------------------- initials

  /** What `w[0]` contributes to a `join('')`: its first character, or nothing for an empty word. */
  function FirstChar(w: string): string {
    if w == [] then [] else [w[0]]
  }

  /** `words.map(n => n[0]).join('')`. */
  function FirstChars(words: seq<string>): string {
    if words == [] then [] else FirstChar(words[0]) + FirstChars(words[1..])
  }

  /** Reference definition: the characters of `s` that begin a word, that is,
      that are not a space and stand first (when `atStart`) or right after a space. */
  function WordStarts(s: string, atStart: bool): string {
    if s == [] then []
    else if s[0] == ' ' then WordStarts(s[1..], true)
    else (if atStart then [s[0]] else []) + WordStarts(s[1..], false)
  }

  /** At most the first two characters, as `substring(0, 2)` takes them. */
  function TakeTwo(s: string): string {
    if |s| <= 2 then s else s[..2]
  }

  /** `getInitials`: split on single spaces, keep each word's first character, upper-case, keep two. */
  function Initials(name: string): string {
    TakeTwo(Upper(FirstChars(Split(name, ' '))))
  }

  /** Taking the first character of every space-separated part picks exactly the word starts;
      empty parts from repeated spaces contribute nothing. */
  lemma {:induction false} FirstCharsOfSplit(s: string, atStart: bool)
    ensures FirstChars(if atStart then Split(s, ' ') else Split(s, ' ')[1..]) == WordStarts(s, atStart)
  {
    if s != [] {
      var rest := Split(s[1..], ' ');
      if s[0] == ' ' {
        assert Split(s, ' ') == [[]] + rest;
        assert ([[]] + rest)[1..] == rest;
        FirstCharsOfSplit(s[1..], true);
      } else {
        var first := [s[0]] + rest[0];
        assert Split(s, ' ') == [first] + rest[1..];
        assert ([first] + rest[1..])[1..] == rest[1..];
        FirstCharsOfSplit(s[1..], false);
      }
    }
  }

  /** The initials are the upper-cased word starts, in order, at most two of them. */
  lemma InitialsAreWordStarts(name: string)
    ensures |Initials(name)| <= 2
    ensures Initials(name) == TakeTwo(Upper(WordStarts(name, true)))
  {
    FirstCharsOfSplit(name, true);
  }

  /** A word without spaces followed by a space contributes exactly its first character. */
  lemma {:induction false} WordStartsAfterWord(w: string, t: string, atStart: bool)
    requires ' ' !in w
    ensures WordStarts(w + [' '] + t, atStart) == (if atStart && w != [] then [w[0]] else []) + WordStarts(t, true)
  {
    if w != [] {
      assert (w + [' '] + t)[1..] == w[1..] + [' '] + t;
      WordStartsAfterWord(w[1..], t, false);
    } else {
      assert (w + [' '] + t)[1..] == t;
    }
  }

  /** "Ada Lovelace" gives "AL": a first and a last name give their upper-cased first letters. */
  lemma InitialsOfFullName(first: string, last: string)
    requires first != [] && last != [] && ' ' !in first && ' ' !in last
    ensures Initials(first + " " + last) == [UpperChar(first[0]), UpperChar(last[0])]
  {
    InitialsAreWordStarts(first + " " + last);
    WordStartsAfterWord(first, last, true);
    assert WordStarts(last, true) == [last[0]] + WordStarts(last[1..], false);
  }

  // ------------------------------------------------------------ status colour

  const SettledClasses := "bg-green-100 text-green-800 dark:bg-green-900 dark:text-green-200"
  const PendingClasses := "bg-yellow-100 text-yellow-800 dark:bg-yellow-900 dark:text-yellow-200"
  const OtherClasses := "bg-gray-100 text-gray-800 dark:bg-gray-700 dark:text-gray-200"

  /** `getStatusColor`: green for a settled status, yellow for a pending one, gray otherwise,
      whatever the letter case. */
  function StatusColor(status: string): (r: string)
    ensures r == SettledClasses <==> Lower(status) == "settled"
    ensures r == PendingClasses <==> Lower(status) == "pending"
    ensures r == OtherClasses <==> Lower(status) != "settled" && Lower(status) != "pending"
  {
    match Lower(status)
    case "settled" => SettledClasses
    case "pending" => PendingClasses
    case _ => OtherClasses
  }

  /** The colour depends on the lower-cased status only. */
  lemma StatusColorIgnoresCase(s: string, t: string)
    requires Lower(s) == Lower(t)
    ensures StatusColor(s) == StatusColor(t)
  {
  }

  // ------------------------------------------------------- participant phrase

  /** A transaction participant; an empty string stands for a missing (falsy) field. */
  datatype Participant = Participant(username: string, name: string, email: string)

  /** `p.username || p.name || p.email.split('@')[0]`. */
  function DisplayName(p: Participant): (r: string)
    ensures p.username != [] ==> r == p.username
    ensures p.username == [] && p.name != [] ==> r == p.name
    ensures p.username == [] && p.name == [] ==>
              '@' !in r && StartsWith(p.email, r) && (|r| == |p.email| || p.email[|r|] == '@')
  {
    if p.username != [] then p.username
    else if p.name != [] then p.name
    else Split(p.email, '@')[0]
  }

  function DisplayNames(ps: seq<Participant>): (names: seq<string>)
    ensures |names| == |ps|
    ensures forall i | 0 <= i < |ps| :: names[i] == DisplayName(ps[i])
  {
    if ps == [] then [] else [DisplayName(ps[0])] + DisplayNames(ps[1..])
  }

  /** The phrase for a list of display names. */
  function ParticipantPhrase(names: seq<string>): (r: string)
    ensures |names| >= 1 ==> StartsWith(r, "With ")
    ensures |names| == 0 <==> r == "No participants"
    ensures |names| == 1 ==> r == "With " + names[0]
    ensures |names| == 2 ==> r == "With " + names[0] + " and " + names[1]
    ensures |names| >= 3 ==> r == "With " + names[0] + ", " + names[1] + ", and " + NatToString(|names| - 2) + " others"
  {
    if |names| == 0 then "No participants"
    else
      var r := "With " + (
        if |names| == 1 then names[0]
        else if |names| == 2 then names[0] + " and " + names[1]
        else names[0] + ", " + names[1] + ", and " + NatToString(|names| - 2) + " others");
      assert r[0] == 'W' && "No participants"[0] == 'N';
      r
  }

  /** `formatParticipants`. */
  function FormatParticipants(ps: seq<Participant>): string {
    ParticipantPhrase(DisplayNames(ps))
  }

  /** The phrase names at most the first two participants: lists that agree on their
      length and on the first two display names read the same. */
  lemma PhraseSeesFirstTwo(ps: seq<Participant>, qs: seq<Participant>)
    requires |ps| == |qs|
    requires forall i | 0 <= i < 2 && i < |ps| :: DisplayName(ps[i]) == DisplayName(qs[i])
    ensures FormatParticipants(ps) == FormatParticipants(qs)
  {
  }

  /** With three or more participants the phrase ends with the count of the others,
      which reads back as the list length minus two. */
  lemma PhraseCountsOthers(ps: seq<Participant>)
    requires |ps| >= 3
    ensures var r := FormatParticipants(ps);
            var k := NatToString(|ps| - 2);
            |r| >= |k| + 7 && r[|r| - 7..] == " others" && ParseNat(r[|r| - 7 - |k|..|r| - 7]) == Some(|ps| - 2)
  {
    var r := FormatParticipants(ps);
    var k := NatToString(|ps| - 2);
    assert r[|r| - 7 - |k|..|r| - 7] == k;
    ParseNatToString(|ps| - 2);
  }

  // ---------------------------------------------------------------- category

  /** `word.charAt(0).toUpperCase() + word.slice(1)`. */
  function Capitalize(w: string): string {
    if w == [] then [] else [UpperChar(w[0])] + w[1..]
  }

  function CapitalizeAll(words: seq<string>): (r: seq<string>)
    ensures |r| == |words|
  {
    if words == [] then [] else [Capitalize(words[0])] + CapitalizeAll(words[1..])
  }

  /** `formatCategory`. */
  function FormatCategory(category: string): string {
    if category == [] then "Other" else Join(CapitalizeAll(Split(category, '_')), " ")
  }

  /** Reference definition: the category read left to right, each '_' a space and the
      first character of every segment upper-cased (`atStart`: a segment begins here). */
  function CategoryFrom(s: string, atStart: bool): string {
    if s == [] then []
    else if s[0] == '_' then [' '] + CategoryFrom(s[1..], true)
    else [if atStart then UpperChar(s[0]) else s[0]] + CategoryFrom(s[1..], false)
  }

  /** What position `i` of a non-empty category turns into. */
  function CategoryChar(s: string, i: nat): char
    requires i < |s|
  {
    if s[i] == '_' then ' '
    else if i == 0 || s[i - 1] == '_' then UpperChar(s[i])
    else s[i]
  }

  lemma JoinConsChar(c: char, x: string, ys: seq<string>, sep: string)
    ensures Join([[c] + x] + ys, sep) == [c] + Join([x] + ys, sep)
  {
    if ys != [] {
      assert ([[c] + x] + ys)[1..] == ys;
      assert ([x] + ys)[1..] == ys;
    }
  }

  lemma JoinConsEmpty(ys: seq<string>, sep: string)
    requires ys != []
    ensures Join([[]] + ys, sep) == sep + Join(ys, sep)
  {
    assert ([[]] + ys)[1..] == ys;
  }

  /** Splitting on '_', capitalising every part (or every part but the first when
      `!atStart`) and joining with spaces is the left-to-right reference. */
  lemma {:induction false} CapitalizedSplit(s: string, atStart: bool)
    ensures var parts := Split(s, '_');
            Join(if atStart then CapitalizeAll(parts) else [parts[0]] + CapitalizeAll(parts[1..]), " ")
              == CategoryFrom(s, atStart)
  {
    var parts := Split(s, '_');
    if s == [] {
      assert parts == [[]];
      assert parts[1..] == [];
    } else {
      var rest := Split(s[1..], '_');
      CapitalizedSplit(s[1..], s[0] == '_');
      if s[0] == '_' {
        assert parts == [[]] + rest;
        assert parts[1..] == rest;
        assert CapitalizeAll(parts) == [[]] + CapitalizeAll(rest);
        JoinConsEmpty(CapitalizeAll(rest), " ");
      } else {
        var c := s[0];
        assert parts == [[c] + rest[0]] + rest[1..];
        assert parts[1..] == rest[1..];
        assert parts[0] == [c] + rest[0];
        assert Capitalize([c] + rest[0]) == [UpperChar(c)] + rest[0] by {
          assert ([c] + rest[0])[1..] == rest[0];
        }
        assert CapitalizeAll(parts) == [[UpperChar(c)] + rest[0]] + CapitalizeAll(rest[1..]);
        JoinConsChar(UpperChar(c), rest[0], CapitalizeAll(rest[1..]), " ");
        JoinConsChar(c, rest[0], CapitalizeAll(rest[1..]), " ");
      }
    }
  }

  lemma {:induction false} CategoryFromAt(s: string, atStart: bool, i: nat)
    requires i < |s|
    ensures |CategoryFrom(s, atStart)| == |s|
    ensures CategoryFrom(s, atStart)[i] ==
              if s[i] == '_' then ' '
              else if (if i == 0 then atStart else s[i - 1] == '_') then UpperChar(s[i])
              else s[i]
  {
    if i > 0 {
      CategoryFromAt(s[1..], s[0] == '_', i - 1);
    } else if |s| > 1 {
      CategoryFromAt(s[1..], s[0] == '_', 0);
    }
  }

  /** `formatCategory`: an empty category reads "Other"; otherwise the label has the
      category's length, every '_' becomes one space, and each segment's first
      character is upper-cased while the rest is kept. No '_' survives. */
  lemma FormatCategorySpec(category: string)
    ensures category == [] ==> FormatCategory(category) == "Other"
    ensures category != [] ==>
              && |FormatCategory(category)| == |category|
              && (forall i | 0 <= i < |category| :: FormatCategory(category)[i] == CategoryChar(category, i))
              && '_' !in FormatCategory(category)
  {
    if category != [] {
      CapitalizedSplit(category, true);
      CategoryFromAt(category, true, 0);
      forall i | 0 <= i < |category|
        ensures FormatCategory(category)[i] == CategoryChar(category, i)
      {
        CategoryFromAt(category, true, i);
      }
    }
  }

  // ------------------------------------------------------------ status label

  /** `status.charAt(0).toUpperCase() + status.slice(1)`: only the first character changes. */
  function StatusLabel(status: string): (r: string)
    ensures |r| == |status|
    ensures status != [] ==> r[0] == UpperChar(status[0]) && r[1..] == status[1..]
  {
    Capitalize(status)
  }

  /** The label shown for a status is drawn in the status's own colour. */
  lemma StatusLabelKeepsColour(status: string)
    ensures StatusColor(StatusLabel(status)) == StatusColor(status)
  {
    var r := StatusLabel(status);
    assert Lower(r) == Lower(status) by {
      forall i | 0 <= i < |status| ensures Lower(r)[i] == Lower(status)[i] {
        if i > 0 { assert r[i] == r[1..][i - 1]; }
      }
    }
  }
}
