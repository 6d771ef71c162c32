// The record Angular hands to `ngOnChanges` for one changed input.
module NgChanges {
  import opened Wrappers

  /**
   * `SimpleChange`: the input's previous value (None stands for
   * `undefined`, which is what the first change carries), its current
   * value, and whether this is the first change.
   */
  datatype SimpleChange<T> = SimpleChange(previousValue: Option<T>, currentValue: T, firstChange: bool)

  /** `SimpleChanges`: the changed inputs, by input name. */
  type SimpleChanges<T> = map<string, SimpleChange<T>>
}
