/** Record shapes of the subdivision domain: a parcel ("batch"), its four
    borders, and the wizard's form. Numbers the source keeps as JavaScript
    numbers are `real` here (areas, meters) or `int` (the requested count). */
module ConstructionTypes {

  /** One side of a parcel: a length in meters and a description of the
      adjoining property. */
  datatype BorderData = BorderData(meters: real, text: string)

  /** A parcel: the original one the user enters, or one of the result
      parcels derived from it. */
  datatype Batch = Batch(
    address: string,
    northData: BorderData,
    eastData: BorderData,
    westData: BorderData,
    southData: BorderData,
    catastralKey: string,
    area: real)

  /** A calendar date, kept opaque: nothing in the model inspects it. */
  datatype Date = Date(epochMillis: int)

  /** The state the wizard edits: the document's folium and date, the
      original parcel, how many result parcels are wanted, and those parcels. */
  datatype ConstructionForm = ConstructionForm(
    folium: string,
    date: Date,
    originalBatch: Batch,
    batchesNumber: int,
    resultBatches: seq<Batch>)

  /** The failures of the domain, both raised by the source as exceptions:
      a requested count that is not a positive integer, and a count too
      large to be the length of a JavaScript array. */
  datatype CountError =
    | InvalidBatchesNumber(count: int)
    | InvalidArrayLength(count: int)

  /** A value or the count failure, for functions that return or throw. */
  datatype Result<T> = Success(value: T) | Failure(error: CountError)

  /** Completion or the count failure, for commands that return nothing. */
  datatype Outcome = Pass | Fail(error: CountError)
}
