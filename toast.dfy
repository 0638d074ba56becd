/** The transient notification a page shows after an action. */
module Toast {

  /** No toast, an error toast with its description, or a success toast. */
  datatype Notice = NoNotice | ErrorNotice(description: string) | SuccessNotice
}
