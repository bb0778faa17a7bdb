/** The part of a data source that query builders compile against: quoting an
    identifier, rendering a value as an SQL literal, and mapping an operator. The
    MySQL data source supplies one (MySqlDialect.Dialect). */
module DataSources {
  import opened PhpValues

  datatype DataSource = DataSource(
    escapeIdentifier: string -> string,
    escapeValue: Value -> string,
    getOperator: string -> string)
}
