/** The badge variants the views choose between. */
module Badges {
  datatype Variant = Default | Secondary | Destructive | Outline
}
