/** A plain select query: SQL text with '?' bind markers, its parameters, and the
    paging window (offset and limit, each unset when negative). */
module SelectQueries {
  import opened PhpValues

  class SelectDataQuery {
    var commandSql: string
    var parameters: seq<Value>
    var offset: int
    var limit: int

    /** new SelectDataQuery($commandSql, $parameters, $offset, $limit); the PHP
        defaults are "", [], -1 and -1. */
    constructor(commandSql: string, parameters: seq<Value>, offset: int, limit: int)
      ensures this.commandSql == commandSql && this.parameters == parameters
      ensures this.offset == offset && this.limit == limit
    {
      this.commandSql := commandSql;
      this.parameters := parameters;
      this.offset := offset;
      this.limit := limit;
    }

    static method Create(commandSql: string, parameters: seq<Value>, offset: int, limit: int) returns (q: SelectDataQuery)
      ensures fresh(q)
      ensures q.commandSql == commandSql && q.parameters == parameters
      ensures q.offset == offset && q.limit == limit
    {
      q := new SelectDataQuery(commandSql, parameters, offset, limit);
    }

    /** Appends one bind parameter; the command and the window are unchanged. */
    method AddParameter(parameter: Value)
      modifies this
      ensures parameters == old(parameters) + [parameter]
      ensures commandSql == old(commandSql) && offset == old(offset) && limit == old(limit)
    {
      parameters := parameters + [parameter];
    }

    /** Replaces the paging window (the limit defaults to -1 in PHP). */
    method SetLimit(offset: int, limit: int)
      modifies this
      ensures this.offset == offset && this.limit == limit
      ensures commandSql == old(commandSql) && parameters == old(parameters)
    {
      this.offset := offset;
      this.limit := limit;
    }
  }
}
