/**
  Broker subjects (internal/domain/routing/subjects.go): printing, parsing and
  the two enumerations the streams are created from.
*/
module Routing {
  import opened Wrappers
  import opened Notification

  function ChannelName(ch: Channel): string {
    match ch
    case Email => "email"
    case Sms => "sms"
    case Push => "push"
    case Webhook => "webhook"
  }

  function PriorityName(pri: Priority): string {
    match pri
    case Low => "low"
    case Normal => "normal"
    case High => "high"
  }

  function NotificationSubject(prefix: string, ch: Channel, pri: Priority): string {
    prefix + "." + ChannelName(ch) + "." + PriorityName(pri)
  }

  function DlqSubject(ch: Channel): string {
    "dlq." + ChannelName(ch)
  }

  // Go's unicode.IsSpace.
  predicate IsSpace(c: char) {
    var n := c as int;
    || 0x09 <= n <= 0x0D || n == 0x20 || n == 0x85 || n == 0xA0 || n == 0x1680
    || 0x2000 <= n <= 0x200A || n == 0x2028 || n == 0x2029 || n == 0x202F || n == 0x205F || n == 0x3000
  }

  function TrimSpace(s: string): string {
    if s != "" && IsSpace(s[0]) then TrimSpace(s[1..])
    else if s != "" && IsSpace(s[|s| - 1]) then TrimSpace(s[..|s| - 1])
    else s
  }

  // Go's unicode.ToLower, for every rune whose lower case is an ASCII letter; all others stay non-ASCII-letters.
  function ToLower(c: char): char {
    if 'A' <= c <= 'Z' then (c as int + 32) as char
    else if c == '\U{212A}' then 'k'
    else if c == '\U{0130}' then 'i'
    else c
  }

  function Normalised(s: string): string {
    var t := TrimSpace(s);
    seq(|t|, i requires 0 <= i < |t| => ToLower(t[i]))
  }

  function ParseChannel(s: string): Option<Channel> {
    var n := Normalised(s);
    if n == "email" then Some(Email)
    else if n == "sms" then Some(Sms)
    else if n == "push" then Some(Push)
    else if n == "webhook" then Some(Webhook)
    else None
  }

  function ParsePriority(s: string): Option<Priority> {
    var n := Normalised(s);
    if n == "" then Some(Normal)
    else if n == "low" then Some(Low)
    else if n == "normal" then Some(Normal)
    else if n == "high" then Some(High)
    else None
  }

  /** strings.Split(s, "."). */
  function Split(s: string): (parts: seq<string>)
    ensures |parts| >= 1
    ensures '.' !in parts[0] && parts[0] <= s
  {
    if s == "" then [""]
    else if s[0] == '.' then [""] + Split(s[1..])
    else
      var rest := Split(s[1..]);
      [[s[0]] + rest[0]] + rest[1..]
  }

  function ParseNotificationSubject(prefix: string, subject: string): Option<(Channel, Priority)> {
    var parts := Split(subject);
    if |parts| < 3 || parts[0] != prefix then None
    else
      match (ParseChannel(parts[1]), ParsePriority(parts[2]))
      case (Some(ch), Some(pri)) => Some((ch, pri))
      case _ => None
  }

  lemma {:induction false} SplitAtDot(head: string, tail: string)
    requires '.' !in head
    ensures Split(head + "." + tail) == [head] + Split(tail)
  {
    var s := head + "." + tail;
    if head == "" {
      assert s[1..] == tail;
    } else {
      SplitAtDot(head[1..], tail);
      assert s[1..] == head[1..] + "." + tail;
      assert [head[0]] + head[1..] == head;
    }
  }

  lemma {:induction false} SplitDotFree(s: string)
    requires '.' !in s
    ensures Split(s) == [s]
  {
    if s != "" {
      SplitDotFree(s[1..]);
      assert [s[0]] + s[1..] == s;
    }
  }

  // ----- What parses

  predicate Blank(s: string) {
    forall i :: 0 <= i < |s| ==> IsSpace(s[i])
  }

  /** The letter in either case; the Kelvin sign and the dotted capital I count as capitals. */
  predicate IsLetter(c: char, letter: char)
    requires 'a' <= letter <= 'z'
  {
    || c == letter || c == (letter as int - 32) as char
    || (c == '\U{212A}' && letter == 'k') || (c == '\U{0130}' && letter == 'i')
  }

  predicate Spells(s: string, word: string)
    requires IsWord(word)
  {
    |s| == |word| && forall i :: 0 <= i < |s| ==> IsLetter(s[i], word[i])
  }

  predicate Tight(s: string) {
    s == "" || (!IsSpace(s[0]) && !IsSpace(s[|s| - 1]))
  }

  lemma {:induction false} TrimSplits(s: string) returns (left: string, right: string)
    ensures s == left + TrimSpace(s) + right && Blank(left) && Blank(right) && Tight(TrimSpace(s))
    decreases |s|
  {
    left, right := "", "";
    if s != "" && IsSpace(s[0]) {
      left, right := TrimSplits(s[1..]);
      BlankBefore(s, left, TrimSpace(s), right);
      left := [s[0]] + left;
    } else if s != "" && IsSpace(s[|s| - 1]) {
      left, right := TrimSplits(s[..|s| - 1]);
      BlankAfter(s, left, TrimSpace(s), right);
      right := right + [s[|s| - 1]];
    }
  }

  lemma BlankBefore(s: string, left: string, middle: string, right: string)
    requires s != "" && IsSpace(s[0]) && Blank(left) && s[1..] == left + middle + right
    ensures Blank([s[0]] + left) && s == ([s[0]] + left) + middle + right
  {
    assert s == [s[0]] + s[1..];
  }

  lemma BlankAfter(s: string, left: string, middle: string, right: string)
    requires s != "" && IsSpace(s[|s| - 1]) && Blank(right) && s[..|s| - 1] == left + middle + right
    ensures Blank(right + [s[|s| - 1]]) && s == left + middle + (right + [s[|s| - 1]])
  {
    assert s == s[..|s| - 1] + [s[|s| - 1]];
  }

  lemma {:induction false} TrimJoins(left: string, s: string, right: string)
    requires Blank(left) && Blank(right) && s != "" && Tight(s)
    ensures TrimSpace(left + s + right) == s
    decreases |left| + |right|
  {
    var all := left + s + right;
    if left != "" {
      assert all[1..] == left[1..] + s + right;
      TrimJoins(left[1..], s, right);
    } else if right != "" {
      var rest := right[..|right| - 1];
      assert all[0] == s[0] && all[..|all| - 1] == left + s + rest;
      TrimJoins(left, s, rest);
    }
  }

  lemma LowerIsLetter(c: char, letter: char)
    requires 'a' <= letter <= 'z'
    ensures ToLower(c) == letter <==> IsLetter(c, letter)
    ensures IsLetter(c, letter) ==> !IsSpace(c)
  {
  }

  /** A string is normalised to a word exactly if it spells it, with blanks around. */
  lemma NormalisedExactly(s: string, word: string)
    requires IsWord(word) && word != ""
    ensures Normalised(s) == word <==>
            exists left, middle, right :: s == left + middle + right && Blank(left) && Blank(right) && Spells(middle, word)
  {
    if Normalised(s) == word {
      var left, right := TrimSplits(s);
      var middle := TrimSpace(s);
      forall i | 0 <= i < |middle| ensures IsLetter(middle[i], word[i]) {
        assert Normalised(s)[i] == ToLower(middle[i]);
        LowerIsLetter(middle[i], word[i]);
      }
      assert s == left + middle + right && Spells(middle, word);
    }
    if left, middle, right :| s == left + middle + right && Blank(left) && Blank(right) && Spells(middle, word) {
      forall i | 0 <= i < |middle| ensures ToLower(middle[i]) == word[i] && !IsSpace(middle[i]) {
        LowerIsLetter(middle[i], word[i]);
      }
      TrimJoins(left, middle, right);
      assert Normalised(s) == word;
    }
  }

  /** A channel is parsed from its name in any case, with any blanks around it, and from nothing else. */
  lemma ParseChannelExactly(s: string, ch: Channel)
    ensures var word := match ch case Email => "email" case Sms => "sms" case Push => "push" case Webhook => "webhook";
            && IsWord(word)
            && (ParseChannel(s) == Some(ch) <==>
                exists left, middle, right :: s == left + middle + right && Blank(left) && Blank(right) && Spells(middle, word))
  {
    NamesAreWords(ch, Low);
    NormalisedExactly(s, ChannelName(ch));
  }

  /** So is a priority, and the normal one from a blank string as well. */
  lemma ParsePriorityExactly(s: string, pri: Priority)
    ensures var word := match pri case Low => "low" case Normal => "normal" case High => "high";
            && IsWord(word)
            && (ParsePriority(s) == Some(pri) <==>
                (pri == Normal && Blank(s))
                || exists left, middle, right :: s == left + middle + right && Blank(left) && Blank(right) && Spells(middle, word))
  {
    NamesAreWords(Email, pri);
    NormalisedExactly(s, PriorityName(pri));
    BlankIsEmpty(s);
  }

  lemma BlankIsEmpty(s: string)
    ensures Normalised(s) == "" <==> Blank(s)
  {
    var left, right := TrimSplits(s);
    if TrimSpace(s) != "" {
      assert s[|left|] == TrimSpace(s)[0] && !IsSpace(s[|left|]);
    }
  }

  // ----- What the streams and consumers filter on

  /** The subject matches the filter of that token and a greater-than sign: it has further tokens. */
  predicate Matches(token: string, subject: string) {
    token + "." < subject
  }

  /** Every subject matches the filter of its stream, and a dead-letter subject names its channel and nothing more. */
  lemma SubjectsMatch(prefix: string, ch: Channel, pri: Priority)
    ensures Matches(prefix, NotificationSubject(prefix, ch, pri)) && Matches("dlq", DlqSubject(ch))
    ensures |Split(DlqSubject(ch))| == 2 && ParseChannel(Split(DlqSubject(ch))[1]) == Some(ch)
  {
    NamesAreCanonical(ch, pri);
    var s, head := NotificationSubject(prefix, ch, pri), prefix + ".";
    assert s == head + (ChannelName(ch) + "." + PriorityName(pri));
    assert DlqSubject(ch) == "dlq" + "." + ChannelName(ch);
    SplitAtDot("dlq", ChannelName(ch));
    SplitDotFree(ChannelName(ch));
  }

  /** Two subjects as they are written out. */
  lemma SubjectsAreSpelledOut()
    ensures NotificationSubject("notifications", Email, Normal) == "notifications.email.normal"
    ensures DlqSubject(Webhook) == "dlq.webhook" && DlqSubject(Email) == "dlq.email"
  {
  }

  predicate IsWord(s: string) {
    forall i :: 0 <= i < |s| ==> 'a' <= s[i] <= 'z'
  }

  lemma WordIsNormalised(s: string)
    requires IsWord(s)
    ensures Normalised(s) == s && '.' !in s
  {
    assert TrimSpace(s) == s;
  }

  lemma NamesAreWords(ch: Channel, pri: Priority)
    ensures IsWord(ChannelName(ch)) && IsWord(PriorityName(pri))
  {
  }

  lemma NamesAreCanonical(ch: Channel, pri: Priority)
    ensures ParseChannel(ChannelName(ch)) == Some(ch)
    ensures ParsePriority(PriorityName(pri)) == Some(pri)
    ensures '.' !in ChannelName(ch) && '.' !in PriorityName(pri)
  {
    NamesAreWords(ch, pri);
    WordIsNormalised(ChannelName(ch));
    WordIsNormalised(PriorityName(pri));
  }

  lemma SplitSubject(prefix: string, ch: Channel, pri: Priority)
    requires '.' !in prefix
    ensures Split(NotificationSubject(prefix, ch, pri)) == [prefix, ChannelName(ch), PriorityName(pri)]
  {
    NamesAreCanonical(ch, pri);
    var c, p := ChannelName(ch), PriorityName(pri);
    assert NotificationSubject(prefix, ch, pri) == prefix + "." + (c + "." + p);
    SplitAtDot(prefix, c + "." + p);
    SplitAtDot(c, p);
    SplitDotFree(p);
  }

  /** A printed subject parses back, and does so exactly for the dot-free prefixes. */
  lemma PrintParse(prefix: string, ch: Channel, pri: Priority)
    ensures ParseNotificationSubject(prefix, NotificationSubject(prefix, ch, pri)) ==
            if '.' in prefix then None else Some((ch, pri))
  {
    if '.' !in prefix {
      SplitSubject(prefix, ch, pri);
      NamesAreCanonical(ch, pri);
    }
  }

  lemma NamesAreDistinct(a: Channel, b: Channel, p: Priority, q: Priority)
    ensures ChannelName(a) == ChannelName(b) ==> a == b
    ensures PriorityName(p) == PriorityName(q) ==> p == q
  {
    assert |ChannelName(a)| == |ChannelName(b)| ==> a == b;
    assert |PriorityName(p)| == |PriorityName(q)| ==> p == q;
  }

  /** Under any one prefix, dotted or not, different channel-priority pairs print differently. */
  lemma PrintIsInjective(prefix: string, a: Channel, b: Channel, p: Priority, q: Priority)
    requires NotificationSubject(prefix, a, p) == NotificationSubject(prefix, b, q)
    ensures a == b && p == q
  {
    NamesAreCanonical(a, p);
    NamesAreCanonical(b, q);
    SameWords(prefix, ChannelName(a), PriorityName(p), ChannelName(b), PriorityName(q));
    NamesAreDistinct(a, b, p, q);
  }

  /** What is joined by dots after the same prefix is the same, if it has no dots of its own. */
  lemma SameWords(prefix: string, c: string, p: string, d: string, q: string)
    requires '.' !in c && '.' !in p && '.' !in d && '.' !in q
    requires prefix + "." + c + "." + p == prefix + "." + d + "." + q
    ensures c == d && p == q
  {
    assert (prefix + "." + c + "." + p)[|prefix| + 1..] == c + "." + p;
    assert (prefix + "." + d + "." + q)[|prefix| + 1..] == d + "." + q;
    SplitAtDot(c, p);
    SplitAtDot(d, q);
    SplitDotFree(p);
    SplitDotFree(q);
    var parts := Split(c + "." + p);
    assert parts == [c] + [p] && parts == [d] + [q];
    assert parts[0] == c == d && parts[1] == p == q;
  }

  /** The two streams share no subject, whatever the prefix. */
  lemma NotificationIsNeverDlq(prefix: string, ch: Channel, pri: Priority, dead: Channel)
    ensures NotificationSubject(prefix, ch, pri) != DlqSubject(dead)
  {
    var s, t := NotificationSubject(prefix, ch, pri), DlqSubject(dead);
    var p, c := PriorityName(pri), ChannelName(dead);
    assert s[|s| - 1] == p[|p| - 1] && s[|s| - 2] == p[|p| - 2];
    assert t[|t| - 1] == c[|c| - 1] && t[|t| - 2] == c[|c| - 2];
  }


  ghost predicate NoDuplicates<T(!new)>(s: seq<T>) {
    forall i, j :: 0 <= i < j < |s| ==> s[i] != s[j]
  }

  function Nth(k: nat): (Channel, Priority)
    requires k < 12
  {
    (ALL_CHANNELS[k / 3], ALL_PRIORITIES[k % 3])
  }

  lemma NthIsOnto(ch: Channel, pri: Priority) returns (k: nat)
    ensures k < 12 && Nth(k) == (ch, pri)
  {
    var i := match ch case Email => 0 case Sms => 1 case Push => 2 case Webhook => 3;
    var j := match pri case Low => 0 case Normal => 1 case High => 2;
    k := 3 * i + j;
  }

  lemma NthIsInjective(m: nat, n: nat)
    requires m < 12 && n < 12 && Nth(m) == Nth(n)
    ensures m == n
  {
    assert forall i, j :: 0 <= i < j < 4 ==> ALL_CHANNELS[i] != ALL_CHANNELS[j];
    assert forall i, j :: 0 <= i < j < 3 ==> ALL_PRIORITIES[i] != ALL_PRIORITIES[j];
    assert m / 3 == n / 3 && m % 3 == n % 3;
  }

  lemma EnumerationIsExact(prefix: string, subjects: seq<string>)
    requires |subjects| == 12
    requires forall k :: 0 <= k < 12 ==> subjects[k] == NotificationSubject(prefix, Nth(k).0, Nth(k).1)
    ensures NoDuplicates(subjects)
    ensures forall ch, pri :: NotificationSubject(prefix, ch, pri) in subjects
  {
    forall m, n | 0 <= m < n < 12 ensures subjects[m] != subjects[n] {
      if subjects[m] == subjects[n] {
        PrintIsInjective(prefix, Nth(m).0, Nth(n).0, Nth(m).1, Nth(n).1);
        NthIsInjective(m, n);
      }
    }
    forall ch, pri ensures NotificationSubject(prefix, ch, pri) in subjects {
      var k := NthIsOnto(ch, pri);
    }
  }

  method AllNotificationSubjects(prefix: string) returns (subjects: seq<string>)
    ensures forall s :: s in subjects <==> exists ch, pri :: s == NotificationSubject(prefix, ch, pri)
    ensures NoDuplicates(subjects)
  {
    subjects := [];
    for i := 0 to |ALL_CHANNELS|
      invariant |subjects| == 3 * i
      invariant forall k :: 0 <= k < |subjects| ==> subjects[k] == NotificationSubject(prefix, Nth(k).0, Nth(k).1)
    {
      for j := 0 to |ALL_PRIORITIES|
        invariant |subjects| == 3 * i + j
        invariant forall k :: 0 <= k < |subjects| ==> subjects[k] == NotificationSubject(prefix, Nth(k).0, Nth(k).1)
      {
        assert Nth(3 * i + j) == (ALL_CHANNELS[i], ALL_PRIORITIES[j]);
        subjects := subjects + [NotificationSubject(prefix, ALL_CHANNELS[i], ALL_PRIORITIES[j])];
      }
    }
    EnumerationIsExact(prefix, subjects);
  }

  method AllDlqSubjects() returns (subjects: seq<string>)
    ensures forall s :: s in subjects <==> exists ch :: s == DlqSubject(ch)
    ensures NoDuplicates(subjects) && |subjects| == 4
  {
    subjects := [];
    for i := 0 to |ALL_CHANNELS|
      invariant |subjects| == i
      invariant forall k :: 0 <= k < i ==> subjects[k] == DlqSubject(ALL_CHANNELS[k])
    {
      subjects := subjects + [DlqSubject(ALL_CHANNELS[i])];
    }
    forall m, n | 0 <= m < n < |subjects| ensures subjects[m] != subjects[n] {
      assert subjects[m][4..] == ChannelName(ALL_CHANNELS[m]) && subjects[n][4..] == ChannelName(ALL_CHANNELS[n]);
      NamesAreDistinct(ALL_CHANNELS[m], ALL_CHANNELS[n], Low, Low);
    }
    forall ch ensures DlqSubject(ch) in subjects {
      var i := match ch case Email => 0 case Sms => 1 case Push => 2 case Webhook => 3;
      assert subjects[i] == DlqSubject(ALL_CHANNELS[i]);
    }
  }
}
