/** The records the tourism API returns, reduced to the fields the modelled logic reads or carries. */
module TourTypes {
  import opened Wrappers

  /** One row of an area-based list or keyword search result. */
  datatype TourItem = TourItem(
    contentid: string,
    contenttypeid: string,
    title: string,
    addr1: string,
    areacode: string,
    mapx: string,
    mapy: string,
    modifiedtime: string)

  /** Pet travel information for one attraction; every descriptive field may be missing. */
  datatype PetTourInfo = PetTourInfo(
    contentid: string,
    contenttypeid: string,
    chkpetleash: Option<string>,
    chkpetsize: Option<string>,
    chkpetplace: Option<string>,
    chkpetfee: Option<string>,
    petinfo: Option<string>,
    parking: Option<string>)

  /** The common detail record of one attraction. */
  datatype TourDetail = TourDetail(
    contentid: string,
    contenttypeid: string,
    title: string,
    addr1: string,
    mapx: string,
    mapy: string)

  /**
   * The eight content type ids in declaration order: tourist spot, cultural
   * facility, festival, tour course, leisure sports, accommodation, shopping,
   * restaurant.
   */
  const ContentTypes: seq<string> := ["12", "14", "15", "25", "28", "32", "38", "39"]
}
