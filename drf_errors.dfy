/** The exceptions the modelled serializer code raises. */
module DrfErrors {

  datatype SerializerError =
    /** `serializers.ValidationError(message)`. */
    | ValidationError(message: string)
    /** `data[key]` on a dict without `key`. */
    | KeyError(key: string)
}
