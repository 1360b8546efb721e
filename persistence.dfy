/**
  The record type the generator produces and the database table stores:
  one row of the table, with the five columns of `BigData`.
 */
module Persistence {
  import opened JavaLang

  /** The three `int` arguments handed to the `java.sql.Date(int, int, int)`
      constructor.  The constructor's calendar interpretation (years counted
      from 1900, months from 0) is not part of this model. */
  datatype Date = Date(year: int32, month: int32, day: int32)

  /** One row: `id`, `userName`, `createdAt`, `text`, `number`. */
  datatype BigData = BigData(
    id: int32,
    userName: string,
    createdAt: Date,
    text: string,
    number: int32)
}
