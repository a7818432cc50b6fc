/** The application's routes, as targets of the pages' `navigate` calls. */
module Navigation {
  datatype Route = HomeRoute | RegisterRoute | SetupRoute | QuizRoute | ResultsRoute | ProfileRoute
}
