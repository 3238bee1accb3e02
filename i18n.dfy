/**
  Text as the components hand it to the theme's translation layer
  (src/login/i18n.ts). The translation table itself is not part of this
  model: a translated text is kept as the key it is looked up under.
 */
module I18n {

  datatype Text =
    | Msg(key: string)       // `msg(key)`: a fixed message of the table
    | Advanced(key: string)  // `advancedMsg(key)`: a key that may name a message or be shown as is
    | Literal(text: string)  // text shown verbatim
}
