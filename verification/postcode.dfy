/**
 The `Postcode` value of the library: it stores the string it is
 constructed with and nothing else. Its "must be a string" requirement is
 carried by the field's type. It holds no normalisation, validation or
 splitting logic, so none is given here.
 */
module PostcodeValue {
  datatype Postcode = Postcode(postcode: string)
}
