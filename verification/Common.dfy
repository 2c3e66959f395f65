/** What the parser, the passes and the emitter share. */
module Common {

  datatype Option<+T> = None | Some(value: T)

  /** Is a variable read or written where it stands? */
  datatype Access = Read | Write
}
