/** The query of the table reader (reader/database.go, `buildSelectConfig`). */
module SelectConfigs {
  import opened Wrappers
  import opened SqlText
  import opened SqlTokens
  import opened SqlCondition
  import opened SqlStatements
  import opened SqlClauses

  /** The parts of the configuration the query is built from; names and conditions are the caller's. */
  datatype ReaderConfig = ReaderConfig(
    table: string, schema: string, fields: seq<string>, rawFields: seq<string>, conditions: seq<string>,
    primaryKey: Option<string>, whereClause: seq<Word>)

  datatype SelectConfig = SelectConfig(
    table: string, schema: string, fields: seq<string>, rawFields: seq<string>, conditions: seq<string>,
    rawConditions: seq<Word>, orderBy: string, limit: int, offset: int)

  /** An incremental run with an incremental field: the condition built for it, empty when there is
      no last value yet. */
  type Incremental = Option<seq<Word>>

  /** `buildSelectConfig`; `format` quotes a column name for the database. */
  method BuildSelectConfig(cfg: ReaderConfig, format: string -> string, incremental: Incremental,
                           limit: int, offset: int)
    returns (s: SelectConfig)
    ensures s.rawConditions
         == if incremental.Some? && incremental.value != [] then JoinAnd(cfg.whereClause, incremental.value)
            else cfg.whereClause
    ensures s.orderBy == if cfg.primaryKey.Some? then format(cfg.primaryKey.value) + " ASC" else ""
    ensures s.table == cfg.table && s.schema == cfg.schema && s.fields == cfg.fields && s.rawFields == cfg.rawFields
    ensures s.conditions == cfg.conditions && s.limit == limit && s.offset == offset
  {
    s := SelectConfig(cfg.table, cfg.schema, cfg.fields, cfg.rawFields, cfg.conditions, [], "", limit, offset);
    if cfg.primaryKey.Some? {
      s := s.(orderBy := format(cfg.primaryKey.value) + " ASC");
    }
    if cfg.whereClause != [] {
      s := s.(rawConditions := cfg.whereClause);
    }
    if incremental.Some? {
      var incCondition := incremental.value;
      if incCondition != [] {
        if s.rawConditions != [] {
          s := s.(rawConditions := s.rawConditions + [AND] + incCondition);
        } else {
          s := s.(rawConditions := incCondition);
        }
      }
    }
  }

  /** Whatever the query around its WHERE, it selects what the clause selects and is new. */
  ghost predicate SelectsNewRowsOnly(head: seq<Word>, whereClause: seq<Word>, incremental: seq<Word>, tail: seq<Word>) {
    forall v: Valuation ::
      Chosen(v, QueryWith(head, JoinAnd(whereClause, incremental), tail))
      <==> Chosen(v, QueryWith(head, whereClause, tail)) && Holds(v, incremental)
  }

  /** What the database selects with and without the incremental condition. */
  lemma IncrementalChooses(head: seq<Word>, whereClause: seq<Word>, incremental: seq<Word>, tail: seq<Word>,
                           v: Valuation)
    requires Frame(head, tail) && Flat(whereClause) && Flat(incremental)
    ensures Chosen(v, QueryWith(head, whereClause, tail)) <==> Selects(v, whereClause)
    ensures Chosen(v, QueryWith(head, JoinAnd(whereClause, incremental), tail))
       <==> Selects(v, JoinAnd(whereClause, incremental))
  {
    JoinFlat(whereClause, incremental);
    ChosenInFrame(v, head, whereClause, tail);
    ChosenInFrame(v, head, JoinAnd(whereClause, incremental), tail);
  }

  /** An incremental read selects the rows of the query that satisfy the incremental condition,
      whatever the row, unless one of the two conditions has a top-level OR. */
  lemma IncrementalSelectsBoth(head: seq<Word>, whereClause: seq<Word>, incremental: seq<Word>, tail: seq<Word>)
    requires Frame(head, tail) && Flat(whereClause) && Flat(incremental) && incremental != []
    requires whereClause != [] ==> !TopLevelOr(whereClause) && !TopLevelOr(incremental)
    ensures SelectsNewRowsOnly(head, whereClause, incremental, tail)
  {
    forall v: Valuation
      ensures Chosen(v, QueryWith(head, JoinAnd(whereClause, incremental), tail))
         <==> Chosen(v, QueryWith(head, whereClause, tail)) && Holds(v, incremental)
    {
      IncrementalChooses(head, whereClause, incremental, tail, v);
      JoinMeansBoth(v, whereClause, incremental);
    }
  }

  /** With different atoms on the two sides that is exactly when it does. */
  lemma IncrementalExactly(head: seq<Word>, whereClause: seq<Word>, incremental: seq<Word>, tail: seq<Word>)
    requires Frame(head, tail) && whereClause != [] && incremental != [] && Flat(whereClause) && Flat(incremental)
    requires Independent(TermsOf(whereClause), TermsOf(incremental))
    ensures SelectsNewRowsOnly(head, whereClause, incremental, tail)
       <==> !TopLevelOr(whereClause) && !TopLevelOr(incremental)
  {
    JoinExactly(whereClause, incremental);
    if SelectsNewRowsOnly(head, whereClause, incremental, tail) {
      forall v: Valuation
        ensures Holds(v, whereClause + [AND] + incremental) <==> Holds(v, whereClause) && Holds(v, incremental)
      {
        IncrementalChooses(head, whereClause, incremental, tail, v);
        assert Chosen(v, QueryWith(head, JoinAnd(whereClause, incremental), tail))
          <==> Chosen(v, QueryWith(head, whereClause, tail)) && Holds(v, incremental);
      }
    }
    if !TopLevelOr(whereClause) && !TopLevelOr(incremental) {
      IncrementalSelectsBoth(head, whereClause, incremental, tail);
    }
  }
}
