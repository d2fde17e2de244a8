/**
 * The settings a drop-down is built with (DropDownContainerConfiguration).
 * They are fixed for the lifetime of the container, which only reads them.
 */
module Configurations {

  datatype Configuration = Configuration(
    title: string,
    titleDisplayed: bool,
    titlePlaceHolder: bool,
    titleSeparator: string,
    selectionDisplayed: bool,
    allLabel: string,
    clearLabel: string,
    clearTitleButtonEnabled: bool,
    eventOnlyEnabled: bool)

}
