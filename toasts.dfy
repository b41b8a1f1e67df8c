/** The notifications the pages raise; rendering them is not modelled. */
module Toasts {
  datatype Toast = Toast(destructive: bool, title: string, description: string)

  /** The message every page shows when no user is signed in. */
  const NotAuthenticatedMessage := "Not authenticated"

  /** The red notification the pages raise in their `catch` blocks. */
  function ErrorToast(message: string): Toast {
    Toast(true, "Error", message)
  }
}
