/** The phases of a dreaming sweep. */
module DreamPhases {
  datatype Phase = Light | Rem | Deep
}
