/** Values the library defines in files that are not part of this model; the
    model uses them unchanged without knowing their text. */
module ApiVersion {
  /** `ApiVersion.V1`, the prefix of every REST path. */
  const V1: string
}

module Constants {
  /** `Constants.DEFAULT_INDEX_NAME`, the name given to the index the memory
      store creates. */
  const DefaultIndexName: string
}
