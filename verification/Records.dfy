/** Records travelling through the pipeline (types.go). */
module Records {
  import opened Wrappers

  /** An `interface{}` cell: nil, a string, or any other value together with its `%v` rendering. */
  datatype Value = Nil | Str(text: string) | Opaque(id: int, shown: string)

  type Data = map<string, Value>

  datatype Record = Record(data: Data, sourcePK: Option<Value>)

  datatype Stage = ReadStage | TransformStage | MapStage | WriteStage

  datatype FailedRecord = FailedRecord(record: Record, error: string, stage: Stage)
}
