/** How a message names contracts (app/agents/contract_resolver_node.py:67-93), over ASCII text. */
module ReferenceMatching {
  import opened Prelude
  import opened Ledger

  predicate IsLetter(c: char)
  {
    'a' <= c <= 'z'
  }

  predicate IsDigit(c: char)
  {
    '0' <= c <= '9'
  }

  function LowerChar(c: char): char
  {
    if 'A' <= c <= 'Z' then ((c as int) + 32) as char else c
  }

  function Lower(s: string): (r: string)
    ensures |r| == |s|
  {
    if s == "" then "" else Lower(s[..|s| - 1]) + [LowerChar(s[|s| - 1])]
  }

  predicate OccursAt(text: string, part: string, i: nat)
  {
    i + |part| <= |text| && text[i..i + |part|] == part
  }

  predicate Contains(text: string, part: string)
  {
    exists i | 0 <= i <= |text| :: OccursAt(text, part, i)
  }

  predicate IsReferenced(message: string, c: Contract)
  {
    c.referenceCode != "" && Contains(message, Lower(c.referenceCode))
  }

  /** The ids of the contracts the message names, in pool order. */
  function Matched(message: string, available: seq<Contract>): (ids: seq<int>)
    ensures |ids| <= |available|
    ensures forall id | id in ids :: HasContract(available, id)
  {
    if available == [] then []
    else
      var init, last := available[..|available| - 1], available[|available| - 1];
      assert forall id | HasContract(init, id) :: HasContract(available, id) by {
        forall id | HasContract(init, id) ensures HasContract(available, id) {
          var k :| 0 <= k < |init| && init[k].id == id;
          assert available[k].id == id;
        }
      }
      Matched(message, init) + (if IsReferenced(message, last) then [last.id] else [])
  }

  function LettersFrom(code: string, i: nat): (n: nat)
    requires i <= |code|
    ensures i <= n <= |code|
    decreases |code| - i
  {
    if i < |code| && IsLetter(code[i]) then LettersFrom(code, i + 1) else i
  }

  /** The letters of a code made of letters followed by digits. */
  function CodePrefix(code: string): Option<string>
  {
    var n := LettersFrom(code, 0);
    if 0 < n < |code| && (forall i | n <= i < |code| :: IsDigit(code[i])) then Some(code[..n]) else None
  }

  /** The prefix occurs somewhere with a digit right behind it. */
  predicate Numbered(message: string, prefix: string)
  {
    exists i | 0 <= i <= |message| ::
      OccursAt(message, prefix, i) && i + |prefix| < |message| && IsDigit(message[i + |prefix|])
  }

  predicate PrefixOf(available: seq<Contract>, prefix: string)
  {
    exists k | 0 <= k < |available| :: CodePrefix(Lower(available[k].referenceCode)) == Some(prefix)
  }

  /** Some known code's letters occur in the message with a digit behind them. */
  ghost predicate NamesUnknownReference(message: string, available: seq<Contract>)
  {
    exists p :: PrefixOf(available, p) && Numbered(message, p)
  }

  lemma SomeString(prefixes: set<string>)
    ensures prefixes == {} || exists p :: p in prefixes
  {
    assert (forall p :: p !in prefixes) ==> prefixes == {};
  }

  /** Collects the prefixes of the known codes, then looks for one of them followed by a digit. */
  method MentionsUnknownReference(message: string, available: seq<Contract>) returns (found: bool)
    ensures found <==> NamesUnknownReference(message, available)
  {
    var prefixes: set<string> := {};
    for k := 0 to |available|
      invariant forall p :: p in prefixes <==>
                            exists j | 0 <= j < k :: CodePrefix(Lower(available[j].referenceCode)) == Some(p)
    {
      var prefix := CodePrefix(Lower(available[k].referenceCode));
      if prefix.Some? {
        prefixes := prefixes + {prefix.value};
      }
    }
    var todo := prefixes;
    while todo != {}
      invariant todo <= prefixes
      invariant forall p | p in prefixes && p !in todo :: !Numbered(message, p)
      decreases todo
    {
      SomeString(todo);
      var p :| p in todo;
      if Numbered(message, p) {
        assert PrefixOf(available, p);
        return true;
      }
      todo := todo - {p};
    }
    found := false;
    forall p | PrefixOf(available, p) ensures !Numbered(message, p) {
      assert p in prefixes;
    }
  }
}
