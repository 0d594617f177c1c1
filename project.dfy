/** The portfolio record shared by the carousel and the admin editor (the `Project` type). */
module ProjectData {
  /** A portfolio entry as the data file stores it. */
  datatype Project = Project(
    id: int,
    title: string,
    category: string,
    description: string,
    imageUrl: string,
    link: string)
}
