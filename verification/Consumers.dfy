/**
  The durable consumers of the dispatch workers (internal/application/dispatch/service.go,
  internal/adapters/nats/broker.go). Every worker gets a durable name of its own, so the
  broker hands every message to every worker, and only the compare-and-swap on the status
  decides which of them dispatches it.
*/
module Consumers {

  // ----- Names

  predicate IsDigit(c: char) { '0' <= c <= '9' }

  predicate IsSafe(c: char) {
    'a' <= c <= 'z' || 'A' <= c <= 'Z' || IsDigit(c) || c == '-' || c == '_'
  }

  function Safe(c: char): char {
    if IsSafe(c) then c else '-'
  }

  function AllSafe(s: string): (r: string)
    ensures |r| == |s| && forall i :: 0 <= i < |s| ==> r[i] == Safe(s[i])
  {
    if s == "" then "" else AllSafe(s[..|s| - 1]) + [Safe(s[|s| - 1])]
  }

  function TrimLeft(s: string): string {
    if s != "" && s[0] == '-' then TrimLeft(s[1..]) else s
  }

  function TrimRight(s: string): (r: string)
    ensures r <= s && (r != "" ==> r[|r| - 1] != '-')
    ensures forall i :: |r| <= i < |s| ==> s[i] == '-'
  {
    if s != "" && s[|s| - 1] == '-' then TrimRight(s[..|s| - 1]) else s
  }

  function Sanitised(name: string): string {
    var out := TrimRight(TrimLeft(AllSafe(name)));
    if out == "" then "consumer" else out
  }

  method SanitizeConsumerName(name: string) returns (out: string)
    ensures out == Sanitised(name)
  {
    var b := "";
    for i := 0 to |name|
      invariant b == AllSafe(name[..i])
    {
      assert name[..i + 1][..i] == name[..i];
      match name[i] {
        case '-' | '_' => b := b + [name[i]];
        case c =>
          if 'a' <= c <= 'z' || 'A' <= c <= 'Z' || '0' <= c <= '9' {
            b := b + [c];
          } else {
            b := b + ['-'];
          }
      }
    }
    assert name[..|name|] == name;
    out := TrimRight(TrimLeft(b));
    if out == "" {
      return "consumer";
    }
  }

  /** What a durable name may hold besides dashes. */
  predicate Plain(c: char) {
    'a' <= c <= 'z' || 'A' <= c <= 'Z' || '0' <= c <= '9' || c == '_'
  }

  lemma {:induction false} TrimLeftMeans(s: string) returns (k: nat)
    ensures k <= |s| && TrimLeft(s) == s[k..] && (forall i :: 0 <= i < k ==> s[i] == '-')
    ensures k < |s| ==> s[k] != '-'
  {
    k := 0;
    if s != "" && s[0] == '-' {
      k := TrimLeftMeans(s[1..]);
      k := k + 1;
    }
  }

  /** The name is what lies between the first and the last plain character, with a dash for every other one. */
  lemma SanitisedMeans(name: string)
    ensures exists lo, hi :: 0 <= lo <= hi <= |name| && IsSanitised(name, lo, hi, Sanitised(name))
  {
    var safe := AllSafe(name);
    var lo := TrimLeftMeans(safe);
    var left := TrimLeft(safe);
    var out := TrimRight(left);
    var hi := lo + |out|;
    assert forall i :: 0 <= i < |name| ==> (safe[i] != '-' <==> Plain(name[i]));
    assert forall i :: 0 <= i < |left| ==> left[i] == safe[lo + i];
    forall i | 0 <= i < |name| && !(lo <= i < hi) ensures !Plain(name[i]) {
      if i >= hi { assert left[i - lo] == '-'; }
    }
    if out == "" { assert lo == hi; } else { assert out[0] == left[0] && out[|out| - 1] == safe[hi - 1]; }
    assert IsSanitised(name, lo, hi, Sanitised(name));
  }

  predicate IsSanitised(name: string, lo: int, hi: int, out: string)
    requires 0 <= lo <= hi <= |name|
  {
    && (forall i :: 0 <= i < |name| && !(lo <= i < hi) ==> !Plain(name[i]))
    && if lo == hi then out == "consumer"
       else
         && |out| == hi - lo && Plain(name[lo]) && Plain(name[hi - 1])
         && forall i :: 0 <= i < |out| ==> out[i] == if Plain(name[lo + i]) then name[lo + i] else '-'
  }

  // ----- Numbers

  function Decimal(n: nat): (r: string)
    ensures r != "" && forall i :: 0 <= i < |r| ==> IsDigit(r[i])
  {
    if n < 10 then [Digit(n)] else Decimal(n / 10) + [Digit(n % 10)]
  }

  function Digit(n: nat): (c: char)
    requires n < 10
    ensures IsDigit(c) && c as int - '0' as int == n
  {
    '0' + n as char
  }

  function Value(s: string): int {
    if s == "" then 0 else 10 * Value(s[..|s| - 1]) + (s[|s| - 1] as int - '0' as int)
  }

  lemma {:induction false} ValueOfDecimal(n: nat)
    ensures Value(Decimal(n)) == n
  {
    if n < 10 {
      assert Value([]) == 0 && Decimal(n)[..0] == [];
    } else {
      ValueOfDecimal(n / 10);
      assert Decimal(n)[..|Decimal(n)| - 1] == Decimal(n / 10);
    }
  }

  // ----- The workers' names

  function WorkerName(i: nat): string { "worker-" + Decimal(i) }

  /** The name under which worker `i` subscribes to the notification stream. */
  function DurableName(i: nat, prefix: string): string {
    Sanitised(WorkerName(i) + "-" + prefix + ".>")
  }

  /** The durable name is the worker's name, and what may follow it starts with a dash. */
  lemma DurableNameStartsWithWorker(i: nat, prefix: string)
    ensures var name, durable := WorkerName(i), DurableName(i, prefix);
            name <= durable && (|durable| > |name| ==> durable[|name|] == '-')
  {
    var name := WorkerName(i);
    var safe := AllSafe(name + "-" + prefix + ".>");
    assert forall k :: 0 <= k < |name| ==> safe[k] == name[k];
    assert safe[0] == 'w' && safe[|name|] == '-';
    var out := TrimRight(safe);
    assert IsDigit(safe[|name| - 1]);
    assert |out| >= |name|;
    assert out[..|name|] == name;
  }

  lemma DurableNamesDiffer(i: nat, j: nat, prefix: string)
    requires i != j
    ensures DurableName(i, prefix) != DurableName(j, prefix)
  {
    var a, b := DurableName(i, prefix), DurableName(j, prefix);
    DurableNameStartsWithWorker(i, prefix);
    DurableNameStartsWithWorker(j, prefix);
    if a == b {
      SameDigits(a, Decimal(i), Decimal(j));
      ValueOfDecimal(i);
      ValueOfDecimal(j);
    }
  }

  lemma SameDigits(s: string, a: string, b: string)
    requires forall k :: 0 <= k < |a| ==> IsDigit(a[k])
    requires forall k :: 0 <= k < |b| ==> IsDigit(b[k])
    requires "worker-" + a <= s && (|s| > |a| + 7 ==> s[|a| + 7] == '-')
    requires "worker-" + b <= s && (|s| > |b| + 7 ==> s[|b| + 7] == '-')
    ensures a == b
  {
    assert forall k :: 0 <= k < |a| ==> s[k + 7] == a[k];
    assert forall k :: 0 <= k < |b| ==> s[k + 7] == b[k];
  }

  /** The subscriptions that Run starts: one for every worker, at least one, under different durable names. */
  method Subscriptions(concurrency: int, prefix: string) returns (names: seq<string>)
    ensures |names| == if concurrency < 1 then 1 else concurrency
    ensures forall i :: 0 <= i < |names| ==> names[i] == DurableName(i, prefix)
    ensures forall i, j :: 0 <= i < j < |names| ==> names[i] != names[j]
  {
    var n := concurrency;
    if n < 1 {
      n := 1;
    }
    names := [];
    for i := 0 to n
      invariant |names| == i
      invariant forall k :: 0 <= k < i ==> names[k] == DurableName(k, prefix)
    {
      var name := SanitizeConsumerName(WorkerName(i) + "-" + prefix + ".>");
      names := names + [name];
    }
    forall i, j | 0 <= i < j < |names| ensures names[i] != names[j] {
      DurableNamesDiffer(i, j, prefix);
    }
  }
}
