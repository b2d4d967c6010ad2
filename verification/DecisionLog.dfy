/** The decision rows of one request, in the order they were written. */
module DecisionLog {
  import opened OnboardingSchema

  function Log(decisions: seq<Decision>, id: RequestId): seq<Decision> {
    if decisions == [] then [] else
    var last := decisions[|decisions| - 1];
    var rest := Log(decisions[..|decisions| - 1], id);
    if last.request == id then rest + [last] else rest
  }

  /** The decision words of some rows. */
  function Spell(rows: seq<Decision>): seq<DecisionWord> {
    seq(|rows|, i requires 0 <= i < |rows| => rows[i].word)
  }

  /** The words of one request, as the integration suite reads them back. */
  function Words(decisions: seq<Decision>, id: RequestId): seq<DecisionWord> {
    Spell(Log(decisions, id))
  }

  lemma LogAppend(decisions: seq<Decision>, d: Decision, id: RequestId)
    ensures Log(decisions + [d], id) == Log(decisions, id) + if d.request == id then [d] else []
    ensures Words(decisions + [d], id) == Words(decisions, id) + if d.request == id then [d.word] else []
  {
    assert (decisions + [d])[..|decisions|] == decisions;
  }

  lemma {:induction false} LogConcat(a: seq<Decision>, b: seq<Decision>, id: RequestId)
    ensures Log(a + b, id) == Log(a, id) + Log(b, id)
  {
    if b == [] {
      assert a + b == a;
    } else {
      var init, last := b[..|b| - 1], b[|b| - 1];
      LogConcat(a, init, id);
      assert a + b == (a + init) + [last] && b == init + [last];
      LogAppend(a + init, last, id);
      LogAppend(init, last, id);
    }
  }

  /** The log of a request holds exactly the rows that name it. */
  lemma {:induction false} LogHolds(decisions: seq<Decision>, id: RequestId, d: Decision)
    ensures d in Log(decisions, id) <==> d in decisions && d.request == id
  {
    if decisions != [] {
      var init, last := decisions[..|decisions| - 1], decisions[|decisions| - 1];
      assert decisions == init + [last];
      LogHolds(init, id, d);
    }
  }

  /** A word is in the words of a request if and only if a row of that request says it. */
  lemma WordsHold(decisions: seq<Decision>, id: RequestId, word: DecisionWord)
    ensures word in Words(decisions, id) <==> exists d <- decisions :: d.request == id && d.word == word
  {
    var log := Log(decisions, id);
    if word in Spell(log) {
      var i :| 0 <= i < |log| && Spell(log)[i] == word;
      LogHolds(decisions, id, log[i]);
    }
    if d :| d in decisions && d.request == id && d.word == word {
      LogHolds(decisions, id, d);
      var i :| 0 <= i < |log| && log[i] == d;
      assert Spell(log)[i] == word;
    }
  }

  /** Every row shows in the words of its request. */
  lemma WordsInclude(decisions: seq<Decision>, i: nat)
    requires i < |decisions|
    ensures decisions[i].word in Words(decisions, decisions[i].request)
  {
    assert decisions[i] in decisions;
    WordsHold(decisions, decisions[i].request, decisions[i].word);
  }
}
