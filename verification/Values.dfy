/** The values a record can hold. */
module Values {
  datatype Value = Nothing | Number(number: int) | Words(text: string)
}
