/** One SET clause of an INSERT or UPDATE: a field, a value or a raw SQL expression. */
module SetValueOperations {
  import opened PhpValues
  import opened DataSources

  datatype SetValueOperation = SetValueOperation(field: string, value: Value, isExpression: bool)

  /** __getValueForDB: an expression goes in parenthesised and unescaped, any other
      value through the data source's value escaping. */
  function ValueForDB(op: SetValueOperation, ds: DataSource): (r: string)
    ensures op.isExpression ==> r == "(" + ToText(op.value) + ")"
    ensures !op.isExpression ==> r == ds.escapeValue(op.value)
  {
    if op.isExpression then "(" + ToText(op.value) + ")" else ds.escapeValue(op.value)
  }

  /** An expression's SQL does not depend on how the data source escapes values; a
      plain value's SQL is exactly what the data source's escaping makes of it, so two
      data sources write it alike exactly when they escape it alike. */
  lemma ExpressionNotEscaped(op: SetValueOperation, ds1: DataSource, ds2: DataSource)
    ensures op.isExpression ==> ValueForDB(op, ds1) == ValueForDB(op, ds2)
    ensures !op.isExpression ==>
      (ValueForDB(op, ds1) == ValueForDB(op, ds2) <==> ds1.escapeValue(op.value) == ds2.escapeValue(op.value))
  {
  }
}
