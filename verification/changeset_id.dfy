/** The random change-set suffix (`id_generator`) and the change-set name.
    The random source is made explicit: `choices[i]` is the index that the
    i-th `random.choice(chars)` picked. */
module ChangeSetId {

  /** `string.ascii_uppercase + string.digits`. */
  const Chars: string := "ABCDEFGHIJKLMNOPQRSTUVWXYZ0123456789"

  /** `id_generator`'s default `size`. */
  const DefaultSize: nat := 6

  predicate IsUpperOrDigit(c: char)
  {
    'A' <= c <= 'Z' || '0' <= c <= '9'
  }

  /** Every choice is an index into `Chars`, as `random.choice` guarantees. */
  predicate ValidChoices(choices: seq<nat>)
  {
    forall i :: 0 <= i < |choices| ==> choices[i] < |Chars|
  }

  /** `Chars` holds exactly the upper-case letters and the digits. */
  lemma CharsAreUpperAndDigits()
    ensures |Chars| == 36
    ensures forall k :: 0 <= k < 26 ==> Chars[k] == ('A' as int + k) as char
    ensures forall k :: 26 <= k < 36 ==> Chars[k] == ('0' as int + k - 26) as char
  {
  }

  /** The position of an upper-case letter or digit in `Chars`. */
  function IndexOf(c: char): (k: nat)
    requires IsUpperOrDigit(c)
    ensures k < |Chars| && Chars[k] == c
  {
    CharsAreUpperAndDigits();
    if 'A' <= c <= 'Z' then c as int - 'A' as int else c as int - '0' as int + 26
  }

  /** `''.join(random.choice(chars) for _ in range(size))` with the first
      `size` choices of the random source. */
  function IdGenerator(size: nat, choices: seq<nat>): (id: string)
    requires size <= |choices| && ValidChoices(choices)
    ensures |id| == size
    ensures forall i :: 0 <= i < size ==> id[i] == Chars[choices[i]] && IsUpperOrDigit(id[i])
  {
    CharsAreUpperAndDigits();
    if size == 0 then ""
    else IdGenerator(size - 1, choices) + [Chars[choices[size - 1]]]
  }

  /** The choices that produce a given id: the inverse of `IdGenerator`. */
  function ChoicesOf(id: string): (choices: seq<nat>)
    requires forall i :: 0 <= i < |id| ==> IsUpperOrDigit(id[i])
    ensures |choices| == |id| && ValidChoices(choices)
  {
    seq(|id|, i requires 0 <= i < |id| => IndexOf(id[i]))
  }

  /** Every id of upper-case letters and digits is generated by exactly one
      sequence of choices: the generator and `ChoicesOf` are inverse. */
  lemma IdRoundTrip(id: string, choices: seq<nat>)
    requires forall i :: 0 <= i < |id| ==> IsUpperOrDigit(id[i])
    requires |choices| == |id| && ValidChoices(choices)
    ensures IdGenerator(|id|, ChoicesOf(id)) == id
    ensures ChoicesOf(IdGenerator(|choices|, choices)) == choices
  {
    CharsAreUpperAndDigits();
    var back := ChoicesOf(IdGenerator(|choices|, choices));
    forall i | 0 <= i < |choices| ensures back[i] == choices[i] {
      var k := choices[i];
      if k < 26 {
        assert Chars[k] == ('A' as int + k) as char;
      } else {
        assert Chars[k] == ('0' as int + k - 26) as char;
      }
    }
  }

  /** Different choices give different ids. */
  lemma IdGeneratorInjective(size: nat, a: seq<nat>, b: seq<nat>)
    requires size == |a| == |b| && ValidChoices(a) && ValidChoices(b)
    requires IdGenerator(size, a) == IdGenerator(size, b)
    ensures a == b
  {
    var id := IdGenerator(size, a);
    IdRoundTrip(id, a);
    IdRoundTrip(id, b);
  }

  /** The change-set name: the stack name, a dash and the id. */
  function ChangeSetName(stackName: string, id: string): string
  {
    stackName + "-" + id
  }

  /** A change-set name made with the default id size starts with the stack
      name and a dash, is seven characters longer than the stack name, and
      ends in upper-case letters and digits. */
  lemma ChangeSetNameFormat(stackName: string, choices: seq<nat>)
    requires DefaultSize <= |choices| && ValidChoices(choices)
    ensures var name := ChangeSetName(stackName, IdGenerator(DefaultSize, choices));
            && |name| == |stackName| + 7
            && name[..|stackName| + 1] == stackName + "-"
            && forall i :: |stackName| + 1 <= i < |name| ==> IsUpperOrDigit(name[i])
  {
    var id := IdGenerator(DefaultSize, choices);
    var name := ChangeSetName(stackName, id);
    forall i | |stackName| + 1 <= i < |name| ensures IsUpperOrDigit(name[i]) {
      assert name[i] == id[i - |stackName| - 1];
    }
  }

  /** For ids of one length, the change-set name determines both the stack
      name and the id. */
  lemma ChangeSetNameInjective(s1: string, id1: string, s2: string, id2: string)
    requires |id1| == |id2|
    requires ChangeSetName(s1, id1) == ChangeSetName(s2, id2)
    ensures s1 == s2 && id1 == id2
  {
    var n := ChangeSetName(s1, id1);
    assert |s1| == |s2|;
    assert n[..|s1|] == s1 && n[..|s2|] == s2;
    assert n[|s1| + 1..] == id1 && n[|s2| + 1..] == id2;
  }

}
