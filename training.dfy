/** What the domain trainers share: the loops that hand their fixed texts
    to the indexer one call after another, discarding every reply, and the
    smoke test run after each sample question. The texts themselves (DDL,
    documentation, question/SQL pairs) are parameters. */
module Training {
  import opened Wrappers
  import V = VannaSetup

  /** A sample question and its SQL. */
  datatype Pair = Pair(question: string, sql: string)

  /** The fixed texts a trainer indexes, in the order it indexes them. */
  datatype Texts = Texts(ddls: seq<string>, docs: seq<string>, pairs: seq<Pair>)

  /** The embedding service's answer to each add, and the database's answer
      to each smoke-test query. */
  datatype Answers = Answers(
    ddls: seq<Result<seq<real>>>, docs: seq<Result<seq<real>>>,
    pairs: seq<Result<seq<real>>>, queries: seq<Result<V.Frame>>)

  /** One answer for every call. */
  predicate AnswersFor(texts: Texts, answers: Answers) {
    && |answers.ddls| == |texts.ddls| && |answers.docs| == |texts.docs|
    && |answers.pairs| == |texts.pairs| && |answers.queries| == |texts.pairs|
  }

  function QuestionEntries(pairs: seq<Pair>): (es: seq<V.Entry>)
    ensures |es| == |pairs|
  {
    seq(|pairs|, i requires 0 <= i < |pairs| => V.QuestionEntry(pairs[i].question, pairs[i].sql))
  }

  function SchemaEntries(name: string, texts: seq<string>): (es: seq<V.Entry>)
    ensures |es| == |texts|
  {
    seq(|texts|, i requires 0 <= i < |texts| => V.SchemaEntry(name, texts[i]))
  }

  /** `for text in texts: self.trainer.add_schema_info(name, text)`: the
      collection goes through one add per text, in order. */
  method AddSchemas(t: V.AcademicVannaTrainer, name: string, texts: seq<string>, responses: seq<Result<seq<real>>>)
    requires |responses| == |texts|
    modifies t.store`collections
    ensures t.store.collections
      == V.AfterAdds(old(t.store.collections), t.store.reachable, t.collectionName, t.md5, SchemaEntries(name, texts), responses)
  {
    ghost var start := t.store.collections;
    ghost var entries := SchemaEntries(name, texts);
    for i := 0 to |texts|
      invariant t.store.collections == V.AfterAdds(start, t.store.reachable, t.collectionName, t.md5, entries[..i], responses[..i])
    {
      var _ := t.AddSchemaInfo(name, texts[i], responses[i]);
      assert entries[..i + 1][..i] == entries[..i] && responses[..i + 1][..i] == responses[..i];
    }
    assert entries[..|texts|] == entries && responses[..|texts|] == responses;
  }

  /** The entries of `for text in texts: trainer.<name>(*before, text, *after)`
      when every call goes through. */
  function CallEntries(name: string, before: seq<string>, texts: seq<string>, after: seq<string>): (es: seq<V.Entry>)
    requires |before| + 1 + |after| == 2
    ensures |es| == |texts|
  {
    seq(|texts|, i requires 0 <= i < |texts| => V.CallEntry(name, before + [texts[i]] + after))
  }

  /** `for text in texts: self.trainer.<name>(*before, text, *after)`, the
      loop of a trainer that calls the indexer as written. A call that
      raises does so on the first text, before anything is sent, and the
      exception leaves the loop; calls that go through add one entry each,
      in order. */
  method InvokeEach(t: V.AcademicVannaTrainer, name: string, before: seq<string>, texts: seq<string>,
                    after: seq<string>, responses: seq<Result<seq<real>>>) returns (outcome: Outcome)
    requires V.Dispatchable(name) && |responses| == |texts|
    modifies t.store`collections
    ensures V.CallError(name, |before| + 1 + |after|).Some? ==>
      && outcome == (if texts == [] then Pass else Fail(V.CallError(name, |before| + 1 + |after|).value))
      && t.store.collections == old(t.store.collections)
    ensures V.CallError(name, |before| + 1 + |after|).None? ==>
      && outcome == Pass
      && t.store.collections
        == V.AfterAdds(old(t.store.collections), t.store.reachable, t.collectionName, t.md5,
                       CallEntries(name, before, texts, after), responses)
  {
    ghost var start := t.store.collections;
    ghost var argc := |before| + 1 + |after|;
    for i := 0 to |texts|
      invariant V.CallError(name, argc).Some? ==> i == 0 && t.store.collections == start
      invariant V.CallError(name, argc).None? ==>
        t.store.collections
          == V.AfterAdds(start, t.store.reachable, t.collectionName, t.md5,
                         CallEntries(name, before, texts, after)[..i], responses[..i])
    {
      var r := t.Invoke(name, before + [texts[i]] + after, responses[i]);
      if r.Failure? {
        return Fail(r.error);
      }
      ghost var entries := CallEntries(name, before, texts, after);
      assert entries[..i + 1][..i] == entries[..i] && responses[..i + 1][..i] == responses[..i];
    }
    if V.CallError(name, argc).None? {
      ghost var entries := CallEntries(name, before, texts, after);
      assert entries[..|texts|] == entries && responses[..|texts|] == responses;
    }
    outcome := Pass;
  }

  /** `train_sample_questions`: each pair is added and then smoke-tested,
      in list order. The verdicts, which the source only logs, are
      returned: every one of them is a pass. */
  method AddPairs(t: V.AcademicVannaTrainer, pairs: seq<Pair>, responses: seq<Result<seq<real>>>,
                  queries: seq<Result<V.Frame>>) returns (passed: seq<bool>)
    requires |responses| == |pairs| && |queries| == |pairs|
    modifies t.store`collections
    ensures t.store.collections
      == V.AfterAdds(old(t.store.collections), t.store.reachable, t.collectionName, t.md5, QuestionEntries(pairs), responses)
    ensures |passed| == |pairs|
    ensures forall i :: 0 <= i < |pairs| ==> passed[i] == V.TestQuery(pairs[i].question, pairs[i].sql, queries[i])
    ensures forall i :: 0 <= i < |pairs| ==> passed[i]
  {
    ghost var start := t.store.collections;
    ghost var entries := QuestionEntries(pairs);
    passed := [];
    for i := 0 to |pairs|
      invariant t.store.collections == V.AfterAdds(start, t.store.reachable, t.collectionName, t.md5, entries[..i], responses[..i])
      invariant |passed| == i
      invariant forall j :: 0 <= j < i ==> passed[j] == V.TestQuery(pairs[j].question, pairs[j].sql, queries[j])
    {
      var _ := t.AddQuestionSql(pairs[i].question, pairs[i].sql, responses[i]);
      passed := passed + [V.TestQuery(pairs[i].question, pairs[i].sql, queries[i])];
      assert entries[..i + 1][..i] == entries[..i] && responses[..i + 1][..i] == responses[..i];
    }
    assert entries[..|pairs|] == entries && responses[..|pairs|] == responses;
  }

  /** Indexing one batch and then another keeps the points of the first:
      after both, every entry of either batch that got an embedding has a
      point under its digest, on a server that answers and holds the
      collection. */
  lemma BatchesStoreEmbedded(cols: map<string, V.Collection>, name: string, md5: string -> string,
                             first: seq<V.Entry>, firstResponses: seq<Result<seq<real>>>,
                             second: seq<V.Entry>, secondResponses: seq<Result<seq<real>>>)
    requires |first| == |firstResponses| && |second| == |secondResponses| && name in cols
    ensures var mid := V.AfterAdds(cols, true, name, md5, first, firstResponses);
      var r := V.AfterAdds(mid, true, name, md5, second, secondResponses);
      && name in r
      && (forall j :: 0 <= j < |first| && V.Embedding(firstResponses[j]) != [] ==> md5(first[j].content) in r[name].points)
      && (forall j :: 0 <= j < |second| && V.Embedding(secondResponses[j]) != [] ==> md5(second[j].content) in r[name].points)
  {
    var mid := V.AfterAdds(cols, true, name, md5, first, firstResponses);
    V.AddsStoreEmbedded(cols, true, name, md5, first, firstResponses);
    V.AddsKeepPoints(mid, true, name, md5, second, secondResponses);
    V.AddsStoreEmbedded(mid, true, name, md5, second, secondResponses);
  }
}
