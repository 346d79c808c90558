/** The schema records exchanged between the introspection handler, the
    diagram serialiser and the shortcut generator. */
module Schema {

  datatype Option<+T> = None | Some(value: T)

  /** One column of a table, as the introspection handler reports it. */
  datatype Column = Column(
    name: string,
    dataType: string,
    isNullable: bool,
    isPrimaryKey: bool,
    isForeignKey: bool)

  /** A table: its name and its columns in ordinal order. */
  datatype Table = Table(name: string, columns: seq<Column>)

  /** A foreign-key relationship; `relationshipType` is free text such as
      "many-to-one" (unknown kinds are legal and are drawn with a default). */
  datatype Relationship = Relationship(
    fromTable: string,
    toTable: string,
    constraintName: string,
    relationshipType: string)
}
