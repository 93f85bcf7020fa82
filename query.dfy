/** The query model: the six search fields the form edits, the rules each
    form handler applies when a field changes, the space normalisation done
    before a lookup, and the search-bar trigger test. */
module Query {

  /** The six search fields (loop/loop.go, type SearchParams). */
  datatype SearchParams = SearchParams(
    number: string,
    firstName: string,
    lastName: string,
    city: string,
    state: string,
    organization: string)

  /** Names for the fields, so that "every other field" can be said once. */
  datatype Field = Number | FirstName | LastName | City | State | Organization

  function Get(p: SearchParams, f: Field): string
  {
    match f
    case Number => p.number
    case FirstName => p.firstName
    case LastName => p.lastName
    case City => p.city
    case State => p.state
    case Organization => p.organization
  }

  /** Two records that agree on every field are the same record. */
  lemma FieldsDetermineParams(p: SearchParams, q: SearchParams)
    requires forall f :: Get(p, f) == Get(q, f)
    ensures p == q
  {
    assert Get(p, Number) == Get(q, Number);
    assert Get(p, FirstName) == Get(q, FirstName);
    assert Get(p, LastName) == Get(q, LastName);
    assert Get(p, City) == Get(q, City);
    assert Get(p, State) == Get(q, State);
    assert Get(p, Organization) == Get(q, Organization);
  }

  /** The state ClearSearchParams leaves behind. */
  function Empty(): (p: SearchParams)
    ensures forall f :: Get(p, f) == ""
  {
    SearchParams("", "", "", "", "", "")
  }

  /** An NPI number is exactly this many characters long. */
  const NumberLength: nat := 10

  /** Appended to every free-text field: a prefix match for the registry. */
  const Wildcard: char := '*'

  /** One change event of a form input: the field, the text now in it, and
      whether the host's advisory call would fail if the handler made one. */
  datatype FormEdit = FormEdit(field: Field, value: string, notifyFails: bool)

  /** What a handler leaves in the search fields and whether it raised an
      advisory ("Npi must be 10 digits", "Searching by City requires State",
      "Searching by State requires City"). */
  datatype EditResult = EditResult(params: SearchParams, warned: bool)

  /** The OnChange handlers of the six form inputs. The number is stored as
      typed, after the advisory, so a failed advisory call returns before the
      store; every other field is stored with the wildcard appended, also when
      the input is empty. City and State each warn when the other is empty. */
  function Edit(p: SearchParams, e: FormEdit): (r: EditResult)
    ensures e.field == Number ==> r.warned == (0 < |e.value| && |e.value| != NumberLength)
    ensures e.field == City ==> r.warned == (p.state == "")
    ensures e.field == State ==> r.warned == (p.city == "")
    ensures e.field in {FirstName, LastName, Organization} ==> !r.warned
    ensures e.field == Number ==>
              Get(r.params, Number) == if r.warned && e.notifyFails then p.number else e.value
    ensures e.field != Number ==> Get(r.params, e.field) == e.value + [Wildcard]
    ensures forall f :: f != e.field ==> Get(r.params, f) == Get(p, f)
  {
    match e.field
    case Number =>
      var warned := |e.value| != NumberLength && |e.value| > 0;
      if warned && e.notifyFails then EditResult(p, warned)
      else EditResult(p.(number := e.value), warned)
    case FirstName => EditResult(p.(firstName := e.value + [Wildcard]), false)
    case LastName => EditResult(p.(lastName := e.value + [Wildcard]), false)
    case Organization => EditResult(p.(organization := e.value + [Wildcard]), false)
    case City =>
      var q := p.(city := e.value + [Wildcard]);
      EditResult(q, q.state == "")
    case State =>
      var q := p.(state := e.value + [Wildcard]);
      EditResult(q, q.city == "")
  }

  /** The search fields after a series of form edits, applied in order. */
  function Edited(p: SearchParams, edits: seq<FormEdit>): SearchParams
  {
    if edits == [] then p
    else Edit(Edited(p, edits[..|edits| - 1]), edits[|edits| - 1]).params
  }

  /** Which of a series of form edits raised an advisory. */
  function Warnings(p: SearchParams, edits: seq<FormEdit>): (w: seq<bool>)
    ensures |w| == |edits|
  {
    if edits == [] then []
    else Warnings(p, edits[..|edits| - 1])
         + [Edit(Edited(p, edits[..|edits| - 1]), edits[|edits| - 1]).warned]
  }

  /** Flag k is the warning of edit k, applied to the fields the first k
      edits left. */
  lemma {:induction false} WarningsAt(p: SearchParams, edits: seq<FormEdit>, k: nat)
    requires k < |edits|
    ensures Warnings(p, edits)[k] == Edit(Edited(p, edits[..k]), edits[k]).warned
  {
    var n := |edits|;
    if k < n - 1 {
      WarningsAt(p, edits[..n - 1], k);
      assert edits[..n - 1][..k] == edits[..k];
    }
  }

  /** A field no edit touches keeps its value. */
  lemma {:induction false} EditedUntouched(p: SearchParams, edits: seq<FormEdit>, f: Field)
    requires forall k :: 0 <= k < |edits| ==> edits[k].field != f
    ensures Get(Edited(p, edits), f) == Get(p, f)
  {
    if edits != [] {
      EditedUntouched(p, edits[..|edits| - 1], f);
    }
  }

  /** For a free-text field the last edit wins: the field holds that edit's
      text with the wildcard appended, whatever came before. */
  lemma {:induction false} EditedLastWins(p: SearchParams, edits: seq<FormEdit>, k: nat)
    requires k < |edits| && edits[k].field != Number
    requires forall j :: k < j < |edits| ==> edits[j].field != edits[k].field
    ensures Get(Edited(p, edits), edits[k].field) == edits[k].value + [Wildcard]
  {
    if k < |edits| - 1 {
      EditedLastWins(p, edits[..|edits| - 1], k);
    }
  }

  /** strings.ReplaceAll(s, " ", "+"). */
  function ReplaceSpaces(s: string): (r: string)
    ensures |r| == |s|
    ensures forall i :: 0 <= i < |s| && s[i] != ' ' ==> r[i] == s[i]
    ensures forall i :: 0 <= i < |s| && s[i] == ' ' ==> r[i] == '+'
  {
    if s == [] then []
    else [if s[0] == ' ' then '+' else s[0]] + ReplaceSpaces(s[1..])
  }

  predicate NoSpaces(s: string) {
    forall i :: 0 <= i < |s| ==> s[i] != ' '
  }

  /** A string without spaces is left as it is. */
  lemma ReplaceSpacesFixes(s: string)
    requires NoSpaces(s)
    ensures ReplaceSpaces(s) == s
  {
  }

  /** Replacing spaces leaves none, so doing it twice is doing it once. */
  lemma ReplaceSpacesIdempotent(s: string)
    ensures NoSpaces(ReplaceSpaces(s))
    ensures ReplaceSpaces(ReplaceSpaces(s)) == ReplaceSpaces(s)
  {
    ReplaceSpacesFixes(ReplaceSpaces(s));
  }

  /** RemoveSpaces: a copy of the record with every space of every field
      replaced by '+'; the caller's record is a value and is not changed. */
  function RemoveSpaces(p: SearchParams): (r: SearchParams)
    ensures forall f :: |Get(r, f)| == |Get(p, f)|
    ensures forall f :: NoSpaces(Get(r, f))
    ensures forall f, i :: 0 <= i < |Get(p, f)| && Get(p, f)[i] != ' ' ==> Get(r, f)[i] == Get(p, f)[i]
    ensures forall f, i :: 0 <= i < |Get(p, f)| && Get(p, f)[i] == ' ' ==> Get(r, f)[i] == '+'
  {
    SearchParams(
      ReplaceSpaces(p.number),
      ReplaceSpaces(p.firstName),
      ReplaceSpaces(p.lastName),
      ReplaceSpaces(p.city),
      ReplaceSpaces(p.state),
      ReplaceSpaces(p.organization))
  }

  lemma RemoveSpacesIdempotent(p: SearchParams)
    ensures RemoveSpaces(RemoveSpaces(p)) == RemoveSpaces(p)
  {
    var r := RemoveSpaces(p);
    forall f ensures Get(RemoveSpaces(r), f) == Get(r, f) {
      ReplaceSpacesFixes(Get(r, f));
    }
    FieldsDetermineParams(RemoveSpaces(r), r);
  }

  predicate IsUpper(c: char) {
    'A' <= c <= 'Z'
  }

  /** The lower-case form of an ASCII letter; other characters are kept. */
  function Lower(c: char): char {
    if IsUpper(c) then (c as int + 32) as char else c
  }

  /** The search-bar callback starts a search only for the two exact texts
      "NPI" and "npi": a trigger is three letters, all capitals or all lower
      case, and no mixed casing starts a search. */
  predicate IsTrigger(text: string): (b: bool)
    ensures b ==> |text| == 3
    ensures b ==> (forall i :: 0 <= i < |text| ==> IsUpper(text[i])) ||
                  (forall i :: 0 <= i < |text| ==> !IsUpper(text[i]))
  {
    text == "NPI" || text == "npi"
  }

  /** The trigger is "npi" matched without regard to case, provided every
      letter has the same case; both casings start a search. */
  lemma TriggerIsExact(text: string)
    ensures IsTrigger("NPI") && IsTrigger("npi")
    ensures IsTrigger(text) <==>
              |text| == 3 && (forall i :: 0 <= i < 3 ==> Lower(text[i]) == "npi"[i]) &&
              ((forall i :: 0 <= i < 3 ==> IsUpper(text[i])) ||
               (forall i :: 0 <= i < 3 ==> !IsUpper(text[i])))
    ensures !IsTrigger("Npi") && !IsTrigger("nPI") && !IsTrigger(" npi") && !IsTrigger("npi ")
  {
    if |text| == 3 && (forall i :: 0 <= i < 3 ==> Lower(text[i]) == "npi"[i]) {
      assert Lower(text[0]) == 'n' && Lower(text[1]) == 'p' && Lower(text[2]) == 'i';
      if forall i :: 0 <= i < 3 ==> IsUpper(text[i]) {
        assert IsUpper(text[0]) && IsUpper(text[1]) && IsUpper(text[2]);
        assert text == "NPI";
      } else if forall i :: 0 <= i < 3 ==> !IsUpper(text[i]) {
        assert !IsUpper(text[0]) && !IsUpper(text[1]) && !IsUpper(text[2]);
        assert text == "npi";
      }
    }
  }
}
